/** Serve claims and what the directory folds them to, as values. */
module Claims {
  import opened Wrappers
  import opened Streams
  import opened Text

  datatype ServeClaim = ServeClaim(node: string, share: string, expiry: int, epoch: int)

  /** A strict order of a share's claims: by epoch upward, then by node id downward. */
  predicate Outranks(a: ServeClaim, b: ServeClaim) {
    a.epoch > b.epoch || (a.epoch == b.epoch && Before(a.node, b.node))
  }

  /** The claims on `share` whose lease ends after `now`; all of them when there is no `now`. */
  predicate Counts(c: ServeClaim, share: string, now: Option<int>) {
    c.share == share && (now.Some? ==> c.expiry > now.value)
  }

  /** The highest claim, the first read of those that rank alike. */
  function Best(claims: seq<ServeClaim>, share: string, now: Option<int>): Option<ServeClaim> {
    if claims == [] then None
    else
      var best, c := Best(claims[..|claims| - 1], share, now), claims[|claims| - 1];
      if Counts(c, share, now) && (best.None? || Outranks(c, best.value)) then Some(c) else best
  }

  /** The highest claim, the last read of those that rank alike. */
  function LastBest(claims: seq<ServeClaim>, share: string, now: Option<int>): Option<ServeClaim> {
    if claims == [] then None
    else
      var best, c := LastBest(claims[..|claims| - 1], share, now), claims[|claims| - 1];
      if Counts(c, share, now) && (best.None? || !Outranks(best.value, c)) then Some(c) else best
  }

  function NodeOf(c: Option<ServeClaim>): Option<string> {
    match c case None => None case Some(c) => Some(c.node)
  }

  /** Who serves a share at a reader's clock: the served store's fold. */
  function WhoServes(claims: seq<ServeClaim>, share: string, now: int): Option<string> {
    NodeOf(Best(claims, share, Some(now)))
  }

  /** The registry's fold of the same. */
  function RegistryWhoServes(claims: seq<ServeClaim>, share: string, now: int): Option<string> {
    NodeOf(LastBest(claims, share, Some(now)))
  }

  /** The last known owner's claim, lapsed or live. */
  function LastClaim(claims: seq<ServeClaim>, share: string): Option<ServeClaim> {
    Best(claims, share, None)
  }

  function MaxClaimEpoch(claims: seq<ServeClaim>, share: string): int {
    match LastClaim(claims, share) case None => 0 case Some(c) => c.epoch
  }

  function MaxEpochIn(claims: seq<ServeClaim>, share: string): Option<int> {
    if claims == [] then None
    else
      var best, c := MaxEpochIn(claims[..|claims| - 1], share), claims[|claims| - 1];
      if c.share == share && (best.None? || c.epoch >= best.value) then Some(c.epoch) else best
  }

  /** The epoch a node's own claims give it on `home`. */
  function HomeEpoch(own: seq<ServeClaim>): int {
    match MaxEpochIn(own, HOME) case None => 1 case Some(epoch) => epoch
  }

  predicate Knows(claims: seq<ServeClaim>, share: string) {
    exists i | 0 <= i < |claims| :: claims[i].share == share
  }

  // The folds, as the stores read the claims.

  method FoldBest(claims: seq<ServeClaim>, share: string, now: Option<int>) returns (best: Option<ServeClaim>)
    ensures best == Best(claims, share, now)
  {
    best := None;
    for i := 0 to |claims|
      invariant best == Best(claims[..i], share, now)
    {
      assert claims[..i + 1][..i] == claims[..i];
      if Counts(claims[i], share, now) && (best.None? || Outranks(claims[i], best.value)) {
        best := Some(claims[i]);
      }
    }
    assert claims[..|claims|] == claims;
  }

  method FoldLastBest(claims: seq<ServeClaim>, share: string, now: Option<int>) returns (best: Option<ServeClaim>)
    ensures best == LastBest(claims, share, now)
  {
    best := None;
    for i := 0 to |claims|
      invariant best == LastBest(claims[..i], share, now)
    {
      assert claims[..i + 1][..i] == claims[..i];
      if Counts(claims[i], share, now) && (best.None? || !Outranks(best.value, claims[i])) {
        best := Some(claims[i]);
      }
    }
    assert claims[..|claims|] == claims;
  }

  // What the folds answer.

  /** `r` is a counted claim nothing counted outranks, or there is none. */
  ghost predicate Highest(claims: seq<ServeClaim>, share: string, now: Option<int>, r: Option<ServeClaim>) {
    match r
    case None => forall c | c in claims :: !Counts(c, share, now)
    case Some(b) => b in claims && Counts(b, share, now) && forall c | c in claims && Counts(c, share, now) :: !Outranks(c, b)
  }

  lemma RankOrder(a: ServeClaim, b: ServeClaim, c: ServeClaim)
    ensures !(Outranks(a, b) && Outranks(b, a))
    ensures Outranks(a, b) && !Outranks(c, b) ==> Outranks(a, c)
    ensures !Outranks(a, b) && Outranks(c, b) ==> Outranks(c, a)
    ensures !Outranks(a, b) && !Outranks(b, a) ==> a.epoch == b.epoch && a.node == b.node
  {
    BeforeTotal(a.node, b.node);
    BeforeTotal(b.node, c.node);
    BeforeTotal(a.node, c.node);
    if Before(a.node, b.node) && Before(b.node, c.node) { BeforeTransitive(a.node, b.node, c.node); }
    if Before(c.node, b.node) && Before(b.node, a.node) { BeforeTransitive(c.node, b.node, a.node); }
  }

  lemma {:induction false} BestIsHighest(claims: seq<ServeClaim>, share: string, now: Option<int>)
    ensures Highest(claims, share, now, Best(claims, share, now)) && Highest(claims, share, now, LastBest(claims, share, now))
  {
    hide Counts, Outranks;
    if claims != [] {
      var init, c := claims[..|claims| - 1], claims[|claims| - 1];
      assert claims == init + [c];
      BestIsHighest(init, share, now);
      var best, last := Best(init, share, now), LastBest(init, share, now);
      if best.Some? { RankOrder(c, best.value, c); }
      if last.Some? { RankOrder(last.value, c, c); }
      Raised(init, c, share, now, Best(init, share, now), Best(claims, share, now));
      Raised(init, c, share, now, LastBest(init, share, now), LastBest(claims, share, now));
    }
  }

  /** One claim more: the best so far stays, or the new one takes its place. */
  lemma Raised(init: seq<ServeClaim>, c: ServeClaim, share: string, now: Option<int>, best: Option<ServeClaim>, best': Option<ServeClaim>)
    requires Highest(init, share, now, best)
    requires if !Counts(c, share, now) then best' == best
             else if best.None? then best' == Some(c)
             else (best' == best && !Outranks(c, best.value)) || (best' == Some(c) && !Outranks(best.value, c))
    ensures Highest(init + [c], share, now, best')
  {
    hide Counts, Outranks;
    if best'.Some? {
      forall d | d in init + [c] && Counts(d, share, now) ensures !Outranks(d, best'.value) {
        RankOrder(d, c, c);
        if d in init && best.Some? { RankOrder(best.value, c, d); RankOrder(d, c, best.value); RankOrder(d, best.value, c); }
      }
    }
  }

  /** Two highest claims rank alike: they name one node and one epoch. */
  lemma HighestAgree(claims: seq<ServeClaim>, share: string, now: Option<int>, r1: Option<ServeClaim>, r2: Option<ServeClaim>)
    requires Highest(claims, share, now, r1) && Highest(claims, share, now, r2)
    ensures r1.Some? == r2.Some?
    ensures r1.Some? ==> r1.value.node == r2.value.node && r1.value.epoch == r2.value.epoch
  {
    if r1.Some? && r2.Some? { RankOrder(r1.value, r2.value, r1.value); }
  }

  /** The two readings of the claims, each in its own order, give one holder. */
  lemma HoldersAgree(claims: seq<ServeClaim>, read: seq<ServeClaim>, share: string, now: int)
    requires forall c :: c in claims <==> c in read
    ensures WhoServes(claims, share, now) == RegistryWhoServes(read, share, now)
    ensures MaxClaimEpoch(claims, share) == MaxClaimEpoch(read, share)
  {
    hide Best, LastBest, Counts, Outranks;
    BestIsHighest(claims, share, Some(now));
    BestIsHighest(read, share, Some(now));
    BestIsHighest(claims, share, None);
    BestIsHighest(read, share, None);
    Reread(claims, read, share, Some(now), LastBest(read, share, Some(now)));
    Reread(claims, read, share, None, Best(read, share, None));
    HighestAgree(claims, share, Some(now), Best(claims, share, Some(now)), LastBest(read, share, Some(now)));
    HighestAgree(claims, share, None, Best(claims, share, None), Best(read, share, None));
  }

  lemma Reread(claims: seq<ServeClaim>, read: seq<ServeClaim>, share: string, now: Option<int>, r: Option<ServeClaim>)
    requires forall c :: c in claims <==> c in read
    requires Highest(read, share, now, r)
    ensures Highest(claims, share, now, r)
  {
  }

  lemma {:induction false} MaxEpochIs(claims: seq<ServeClaim>, share: string)
    ensures match MaxEpochIn(claims, share)
      case None => forall c | c in claims :: c.share != share
      case Some(e) =>
        && (exists c | c in claims :: c.share == share && c.epoch == e)
        && (forall c | c in claims && c.share == share :: c.epoch <= e)
  {
    if claims != [] {
      var init, c := claims[..|claims| - 1], claims[|claims| - 1];
      assert claims == init + [c];
      MaxEpochIs(init, share);
      var best := MaxEpochIn(init, share);
      if best.Some? {
        var b :| b in init && b.share == share && b.epoch == best.value;
        assert b in claims;
      }
      assert c in claims;
    }
  }

  // Claims that stand for others.

  /** `later` keeps `c` alive, and ranked, as long as `c` was. */
  predicate Over(later: ServeClaim, c: ServeClaim) {
    later.node == c.node && later.share == c.share && later.expiry >= c.expiry && later.epoch >= c.epoch
  }

  /** `some` are of `all`, and one of them is over each of `all`. */
  ghost predicate Stands(some: seq<ServeClaim>, all: seq<ServeClaim>) {
    && (forall c | c in some :: c in all)
    && (forall c | c in all :: OverBy(some, c))
  }

  ghost predicate OverBy(some: seq<ServeClaim>, c: ServeClaim) {
    exists d | d in some :: Over(d, c)
  }

  lemma StandsWith(others: seq<ServeClaim>, some: seq<ServeClaim>, all: seq<ServeClaim>)
    requires Stands(some, all)
    ensures Stands(others + some, others + all) && Stands(some + others, all + others)
  {
    forall c | c in others + all || c in all + others ensures OverBy(others + some, c) && OverBy(some + others, c) {
      if c in others {
        assert Over(c, c) && c in others + some && c in some + others;
      } else {
        var d :| d in some && Over(d, c);
        assert d in others + some && d in some + others;
      }
    }
  }

  lemma StandsHighest(some: seq<ServeClaim>, all: seq<ServeClaim>, share: string, now: Option<int>, r: Option<ServeClaim>)
    requires Stands(some, all) && Highest(some, share, now, r)
    ensures Highest(all, share, now, r)
  {
    forall c | c in all && Counts(c, share, now)
      ensures r.Some? && !Outranks(c, r.value)
    {
      assert OverBy(some, c);
      var d :| d in some && Over(d, c);
      assert Counts(d, share, now);
      RankOrder(d, r.value, c);
      RankOrder(c, r.value, d);
      BeforeTotal(d.node, d.node);
    }
  }

  /** Claims that stand for others are folded alike, with anyone else's claims, at every clock. */
  lemma FoldsAgree(others: seq<ServeClaim>, some: seq<ServeClaim>, all: seq<ServeClaim>, share: string, now: int)
    requires Stands(some, all)
    ensures WhoServes(others + some, share, now) == WhoServes(others + all, share, now)
    ensures RegistryWhoServes(others + some, share, now) == RegistryWhoServes(others + all, share, now)
    ensures MaxClaimEpoch(others + some, share) == MaxClaimEpoch(others + all, share)
    ensures NodeOf(LastClaim(others + some, share)) == NodeOf(LastClaim(others + all, share))
    ensures HomeEpoch(some) == HomeEpoch(all)
    ensures Knows(others + some, share) <==> Knows(others + all, share)
  {
    hide Best, LastBest, Counts, Outranks, Over, MaxEpochIn;
    StandsWith(others, some, all);
    var mine, full := others + some, others + all;
    SameHighest(mine, full, share, Some(now));
    SameHighest(mine, full, share, None);
    SameHome(some, all);
    SameKnown(mine, full, share);
  }

  lemma SameHighest(some: seq<ServeClaim>, all: seq<ServeClaim>, share: string, now: Option<int>)
    requires Stands(some, all)
    ensures NodeOf(Best(some, share, now)) == NodeOf(Best(all, share, now))
    ensures NodeOf(LastBest(some, share, now)) == NodeOf(LastBest(all, share, now))
    ensures Best(some, share, now).Some? == Best(all, share, now).Some?
    ensures Best(some, share, now).Some? ==> Best(some, share, now).value.epoch == Best(all, share, now).value.epoch
  {
    hide Best, LastBest, Counts, Outranks, Stands;
    BestIsHighest(some, share, now);
    BestIsHighest(all, share, now);
    StandsHighest(some, all, share, now, Best(some, share, now));
    StandsHighest(some, all, share, now, LastBest(some, share, now));
    HighestAgree(all, share, now, Best(some, share, now), Best(all, share, now));
    HighestAgree(all, share, now, LastBest(some, share, now), LastBest(all, share, now));
  }

  lemma SameHome(some: seq<ServeClaim>, all: seq<ServeClaim>)
    requires Stands(some, all)
    ensures HomeEpoch(some) == HomeEpoch(all)
  {
    hide MaxEpochIn;
    MaxEpochIs(some, HOME);
    MaxEpochIs(all, HOME);
    var a, b := MaxEpochIn(some, HOME), MaxEpochIn(all, HOME);
    if b.Some? {
      var c :| c in all && c.share == HOME && c.epoch == b.value;
      assert OverBy(some, c);
      var d :| d in some && Over(d, c);
      assert d in all && d.share == HOME;
    }
  }

  lemma SameKnown(some: seq<ServeClaim>, all: seq<ServeClaim>, share: string)
    requires Stands(some, all)
    ensures Knows(some, share) <==> Knows(all, share)
  {
    if i :| 0 <= i < |some| && some[i].share == share {
      assert some[i] in all;
      var j :| 0 <= j < |all| && all[j] == some[i];
    }
    if i :| 0 <= i < |all| && all[i].share == share {
      assert OverBy(some, all[i]);
      var d :| d in some && Over(d, all[i]);
      var j :| 0 <= j < |some| && some[j] == d;
    }
  }
}
