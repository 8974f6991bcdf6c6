/** Folding a node's claims changes no answer, at any clock, over any run; and it keeps the
    chain short. */
module CompactionLaws {
  import opened Wrappers
  import opened Text
  import opened Claims
  import opened Compaction

  // One fold.

  lemma OverOver(a: ServeClaim, b: ServeClaim, c: ServeClaim)
    requires Over(a, b) && Over(b, c)
    ensures Over(a, c)
  {
  }

  /** A claim not superseded is over every claim. */
  lemma {:induction false} LastOver(claims: seq<ServeClaim>, i: nat) returns (j: nat)
    requires i < |claims|
    ensures i <= j < |claims| && !Superseded(claims, j) && Over(claims[j], claims[i])
    decreases |claims| - i
  {
    if Superseded(claims, i) {
      var k :| i < k < |claims| && Over(claims[k], claims[i]);
      j := LastOver(claims, k);
      OverOver(claims[j], claims[k], claims[i]);
    } else {
      j := i;
    }
  }

  lemma {:induction false} UnsupersededAre(claims: seq<ServeClaim>, n: nat)
    requires n <= |claims|
    ensures forall c | c in Unsuperseded(claims, n) :: c in claims[..n]
    ensures forall j | 0 <= j < n && !Superseded(claims, j) :: claims[j] in Unsuperseded(claims, n)
  {
    hide Superseded;
    if n > 0 {
      UnsupersededAre(claims, n - 1);
      assert claims[..n] == claims[..n - 1] + [claims[n - 1]];
      assert !Superseded(claims, n - 1) ==> claims[n - 1] in Unsuperseded(claims, n);
    }
  }

  /** The claims a fold carries, and its renewals, stand for all of them. */
  lemma CarriedStand(held: seq<ServeClaim>, renewals: seq<ServeClaim>)
    ensures Stands(Unsuperseded(held + renewals, |held|) + renewals, held + renewals)
  {
    hide Superseded, Over;
    var all, n := held + renewals, |held|;
    var kept := Unsuperseded(all, n) + renewals;
    UnsupersededAre(all, n);
    assert all[..n] == held;
    forall c | c in all ensures OverBy(kept, c) {
      var i :| 0 <= i < |all| && all[i] == c;
      var j := LastOver(all, i);
      if j >= n {
        assert all[j] == renewals[j - n];
      }
      assert all[j] in kept && Over(all[j], c);
    }
  }

  // The chain.

  /** The ops follow one another from the floor. */
  ghost predicate InLine(c: Chain) {
    && (forall i | 0 <= i < |c.ops| :: c.ops[i].no == c.ops[0].no + i)
    && (c.base.Some? && c.ops != [] ==> c.ops[0].no == c.base.value + 1)
  }

  /** `c'` is `c` with `claims` after it. */
  ghost predicate Extends(c: Chain, c': Chain, claims: seq<ServeClaim>) {
    && c'.base == c.base && |c'.ops| == |c.ops| + |claims| && Tip(c') == Tip(c) + |claims|
    && c.ops <= c'.ops
    && (forall i | |c.ops| <= i < |c'.ops| :: c'.ops[i].no > Tip(c) && c'.ops[i].claim == Some(claims[i - |c.ops|]))
  }

  lemma {:induction false} AppendsAre(c: Chain, claims: seq<ServeClaim>)
    requires InLine(c)
    ensures var c' := AppendAll(c, claims);
      InLine(c') && Extends(c, c', claims) && Decoded(c'.ops) == Decoded(c.ops) + claims
  {
    hide InLine, Decoded, Append;
    if claims == [] {
      assert Decoded(c.ops) + claims == Decoded(c.ops);
      ExtendsItself(c);
    } else {
      hide Extends;
      var init, last := claims[..|claims| - 1], claims[|claims| - 1];
      AppendsAre(c, init);
      AppendIs(AppendAll(c, init), last);
      ExtendsOne(c, AppendAll(c, init), init, last);
      assert init + [last] == claims;
      assert Decoded(c.ops) + init + [last] == Decoded(c.ops) + claims;
    }
  }

  lemma ExtendsItself(c: Chain)
    ensures Extends(c, c, [])
  {
  }

  lemma AppendIs(c: Chain, claim: ServeClaim)
    requires InLine(c)
    ensures InLine(Append(c, claim)) && Decoded(Append(c, claim).ops) == Decoded(c.ops) + [claim]
  {
    assert Append(c, claim).ops[..|c.ops|] == c.ops;
  }

  lemma ExtendsOne(c: Chain, c1: Chain, init: seq<ServeClaim>, last: ServeClaim)
    requires Extends(c, c1, init)
    ensures Extends(c, Append(c1, last), init + [last])
  {
  }

  lemma {:induction false} AboveSplits(ops: seq<Held>, more: seq<Held>, base: int)
    requires (forall i | 0 <= i < |ops| :: ops[i].no <= base) && forall i | 0 <= i < |more| :: more[i].no > base
    ensures Above(ops + more, base) == more
  {
    if more != [] {
      var init := more[..|more| - 1];
      assert (ops + more)[..|ops + more| - 1] == ops + init;
      AboveSplits(ops, init, base);
      assert init + [more[|more| - 1]] == more;
    } else {
      NoneAbove(ops, base);
      assert ops + more == ops;
    }
  }

  lemma {:induction false} NoneAbove(ops: seq<Held>, base: int)
    requires forall i | 0 <= i < |ops| :: ops[i].no <= base
    ensures Above(ops, base) == []
  {
    if ops != [] {
      NoneAbove(ops[..|ops| - 1], base);
    }
  }

  lemma {:induction false} DecodedOnly(ops: seq<Held>, claims: seq<ServeClaim>)
    requires |ops| == |claims| && forall i | 0 <= i < |ops| :: ops[i].claim == Some(claims[i])
    ensures Decoded(ops) == claims
  {
    if ops != [] {
      DecodedOnly(ops[..|ops| - 1], claims[..|claims| - 1]);
    }
  }

  /** What a tick leaves: without a fold, the chain and the renewals after it; with one, nothing at
      or below the old tip, and above it the claims carried and the renewals. */
  lemma TickLeaves(c: Chain, renewals: seq<ServeClaim>, after: nat)
    requires InLine(c)
    ensures var (c', folded) := Tick(c, renewals, after);
      && InLine(c') && (folded.Some? <==> Due(c.ops, renewals, after).base.Some?)
      && (folded.None? ==> c' == AppendAll(c, renewals) && Decoded(c'.ops) == Decoded(c.ops) + renewals
                           && |c'.ops| == |c.ops| + |renewals|)
      && (folded.Some? ==>
           var claims := Unsuperseded(Decoded(c.ops) + renewals, |Decoded(c.ops)|) + renewals;
           && c'.base == Some(Tip(c)) && folded.value.base == Tip(c)
           && Decoded(c'.ops) == claims && |c'.ops| == |claims|
           && folded.value.dropped + folded.value.carried == |c.ops|
           && folded.value.carried == |claims| - |renewals|)
  {
    hide Superseded, Decoded, Unsuperseded, AppendAll, InLine, Extends, Place;
    var due := Due(c.ops, renewals, after);
    var claims := due.carried + renewals;
    AppendsAre(c, claims);
    if due.base.None? {
      assert claims == renewals;
      assert |AppendAll(c, renewals).ops| == |c.ops| + |renewals| by { ExtendsBy(c, AppendAll(c, claims), claims); }
    } else {
      CarriedAreHeld(c.ops, renewals);
      PlaceLeaves(c, AppendAll(c, claims), claims);
      assert due.base.value == Tip(c);
    }
  }

  lemma ExtendsBy(c: Chain, c': Chain, claims: seq<ServeClaim>)
    requires Extends(c, c', claims)
    ensures |c'.ops| == |c.ops| + |claims|
  {
  }

  /** A checkpoint at the old tip leaves just what came after it. */
  lemma PlaceLeaves(c: Chain, c1: Chain, claims: seq<ServeClaim>)
    requires InLine(c) && InLine(c1) && Extends(c, c1, claims) && c.ops != []
    ensures var c' := Place(c1, Tip(c));
      InLine(c') && c'.base == Some(Tip(c)) && Decoded(c'.ops) == claims && |c'.ops| == |claims|
  {
    hide Decoded, Above;
    var more := c1.ops[|c.ops|..];
    assert c1.ops == c.ops + more;
    forall i | 0 <= i < |more| ensures more[i] == c1.ops[|c.ops| + i] {
    }
    AboveSplits(c.ops, more, Tip(c));
    DecodedOnly(more, claims);
    if more != [] {
      assert more[0] == c1.ops[|c.ops|];
    }
  }

  /** A tick's claims stand for those held and its renewals: every fold of the directory answers
      alike over the two, with any other nodes' claims, at every instant. */
  lemma TickKeepsMeaning(c: Chain, renewals: seq<ServeClaim>, after: nat, others: seq<ServeClaim>, share: string, now: int)
    requires InLine(c)
    ensures var kept, held := Decoded(Tick(c, renewals, after).0.ops), Decoded(c.ops) + renewals;
      && Stands(kept, held)
      && WhoServes(others + kept, share, now) == WhoServes(others + held, share, now)
      && RegistryWhoServes(others + kept, share, now) == RegistryWhoServes(others + held, share, now)
      && MaxClaimEpoch(others + kept, share) == MaxClaimEpoch(others + held, share)
      && HomeEpoch(kept) == HomeEpoch(held)
      && (Knows(others + kept, share) <==> Knows(others + held, share))
  {
    hide Superseded, Decoded, Unsuperseded, Tick, WhoServes, RegistryWhoServes, MaxClaimEpoch, HomeEpoch, Knows, LastClaim, Stands;
    TickLeaves(c, renewals, after);
    var held := Decoded(c.ops) + renewals;
    CarriedStand(Decoded(c.ops), renewals);
    StandsItself(held);
    FoldsAgree(others, Decoded(Tick(c, renewals, after).0.ops), held, share, now);
  }

  lemma StandsItself(claims: seq<ServeClaim>)
    ensures Stands(claims, claims)
  {
    forall c | c in claims ensures OverBy(claims, c) {
      assert Over(c, c);
    }
  }

  lemma StandsAlong(a: seq<ServeClaim>, b: seq<ServeClaim>, c: seq<ServeClaim>)
    requires Stands(a, b) && Stands(b, c)
    ensures Stands(a, c)
  {
    forall x | x in c ensures OverBy(a, x) {
      assert OverBy(b, x);
      var y :| y in b && Over(y, x);
      assert OverBy(a, y);
      var z :| z in a && Over(z, y);
      OverOver(z, y, x);
    }
  }

  // Whole runs.

  datatype Turn =
    | Serving(share: string, others: seq<ServeClaim>, expiry: int)
    | Renewing(expiry: int)

  ghost function Next(a: Authority, turn: Turn, after: Option<nat>): Authority {
    match turn
    case Serving(share, others, expiry) => Serve(a, share, others, expiry)
    case Renewing(expiry) => Renew(a, expiry, after)
  }

  ghost function Run(start: Authority, turns: seq<Turn>, after: Option<nat>): Authority {
    if turns == [] then start else Next(Run(start, turns[..|turns| - 1], after), turns[|turns| - 1], after)
  }

  /** A node that folds its chain, and one that never does. */
  ghost predicate Alike(folding: Authority, whole: Authority) {
    && folding.node == whole.node && folding.served == whole.served
    && InLine(folding.chain) && InLine(whole.chain)
    && Stands(Decoded(folding.chain.ops), Decoded(whole.chain.ops))
  }

  lemma ServeStaysAlike(a: Authority, b: Authority, share: string, others: seq<ServeClaim>, expiry: int)
    requires Alike(a, b)
    ensures Alike(Serve(a, share, others, expiry), Serve(b, share, others, expiry))
  {
    hide Superseded, Stands, WhoServes, RegistryWhoServes, HomeEpoch, Knows, MaxClaimEpoch, LastClaim, InLine, Decoded;
    FoldsAgree(others, Decoded(a.chain.ops), Decoded(b.chain.ops), share, 0);
    var claim := ServeClaim(a.node, share, expiry, MaxClaimEpoch(others + Decoded(a.chain.ops), share) + 1);
    AppendIs(a.chain, claim);
    AppendIs(b.chain, claim);
    StandsWith([claim], Decoded(a.chain.ops), Decoded(b.chain.ops));
  }

  lemma RenewStaysAlike(a: Authority, b: Authority, expiry: int, after: Option<nat>)
    requires Alike(a, b)
    ensures Alike(Renew(a, expiry, after), Renew(b, expiry, None))
  {
    hide Superseded, Stands, InLine, Decoded, Tick, AppendAll, Renewals;
    if a.served != [] {
      var renewals := Renewals(a.node, a.served, expiry);
      AppendsAre(b.chain, renewals);
      AppendsAre(a.chain, renewals);
      StandsWith(renewals, Decoded(a.chain.ops), Decoded(b.chain.ops));
      if after.Some? {
        TickLeaves(a.chain, renewals, after.value);
        TickKeepsMeaning(a.chain, renewals, after.value, [], "", 0);
        StandsAlong(Decoded(Tick(a.chain, renewals, after.value).0.ops), Decoded(a.chain.ops) + renewals, Decoded(b.chain.ops) + renewals);
      }
    }
  }

  lemma {:induction false} RunsStayAlike(start: Authority, turns: seq<Turn>, after: nat)
    requires InLine(start.chain)
    ensures Alike(Run(start, turns, Some(after)), Run(start, turns, None))
  {
    hide Alike, Serve, Renew, Stands, Decoded;
    if turns == [] {
      StandsItself(Decoded(start.chain.ops));
      StartsAlike(start);
    } else {
      var init := turns[..|turns| - 1];
      RunsStayAlike(start, init, after);
      var a, b := Run(start, init, Some(after)), Run(start, init, None);
      match turns[|turns| - 1] {
        case Serving(share, others, expiry) => ServeStaysAlike(a, b, share, others, expiry);
        case Renewing(expiry) => RenewStaysAlike(a, b, expiry, Some(after));
      }
    }
  }

  lemma StartsAlike(start: Authority)
    requires InLine(start.chain) && Stands(Decoded(start.chain.ops), Decoded(start.chain.ops))
    ensures Alike(start, start)
  {
  }

  /** Over any run of serves and renewals, a node that folds its claims serves the same shares, at
      the same epochs, as one that never folds; and every fold of the directory answers alike over
      the two, with any other nodes' claims, at every instant. */
  lemma FoldingChangesNothing(start: Authority, turns: seq<Turn>, after: nat, others: seq<ServeClaim>, share: string, now: int)
    requires InLine(start.chain)
    ensures var folding, whole := Run(start, turns, Some(after)), Run(start, turns, None);
      var kept, all := Decoded(folding.chain.ops), Decoded(whole.chain.ops);
      && folding.served == whole.served
      && WhoServes(others + kept, share, now) == WhoServes(others + all, share, now)
      && RegistryWhoServes(others + kept, share, now) == RegistryWhoServes(others + all, share, now)
      && MaxClaimEpoch(others + kept, share) == MaxClaimEpoch(others + all, share)
      && HomeEpoch(kept) == HomeEpoch(all)
      && (Knows(others + kept, share) <==> Knows(others + all, share))
  {
    hide Run, Decoded, WhoServes, RegistryWhoServes, MaxClaimEpoch, HomeEpoch, Knows, LastClaim, Stands;
    RunsStayAlike(start, turns, after);
    FoldsAgree(others, Decoded(Run(start, turns, Some(after)).chain.ops), Decoded(Run(start, turns, None).chain.ops), share, now);
  }

  // How long the chain grows.

  lemma {:induction false} CountedAll(claims: seq<ServeClaim>, n: nat)
    requires n <= |claims|
    ensures |Unsuperseded(claims, n)| + CountSuperseded(claims, n) == n
  {
    hide Superseded;
    if n > 0 { CountedAll(claims, n - 1); }
  }

  /** Claims appended only supersede more. */
  lemma {:induction false} MoreSupersede(claims: seq<ServeClaim>, more: seq<ServeClaim>, n: nat)
    requires n <= |claims|
    ensures |Unsuperseded(claims + more, n)| <= |Unsuperseded(claims, n)|
  {
    hide Superseded;
    if n > 0 {
      MoreSupersede(claims, more, n - 1);
      assert Superseded(claims, n - 1) ==> Superseded(claims + more, n - 1) by { StillSuperseded(claims, more, n - 1); }
    }
  }

  lemma StillSuperseded(claims: seq<ServeClaim>, more: seq<ServeClaim>, i: nat)
    requires i < |claims|
    ensures Superseded(claims, i) ==> Superseded(claims + more, i)
  {
    if Superseded(claims, i) {
      var j :| i < j < |claims| && Over(claims[j], claims[i]);
      assert (claims + more)[j] == claims[j];
    }
  }

  lemma {:induction false} RestSuperseded(claims: seq<ServeClaim>, n: nat, m: nat)
    requires n <= m <= |claims| && forall i | n <= i < m :: Superseded(claims, i)
    ensures Unsuperseded(claims, m) == Unsuperseded(claims, n)
  {
    hide Superseded;
    if n < m {
      RestSuperseded(claims, n, m - 1);
      assert Unsuperseded(claims, m - 1) + [] == Unsuperseded(claims, m - 1);
    }
  }

  lemma {:induction false} RestCounts(claims: seq<ServeClaim>, n: nat, m: nat)
    requires n <= m <= |claims|
    ensures |Unsuperseded(claims, n)| <= |Unsuperseded(claims, m)| <= |Unsuperseded(claims, n)| + m - n
  {
    hide Superseded;
    if n < m { RestCounts(claims, n, m - 1); }
  }

  /** The chain ends with the renewals of the last tick, or none has been made. */
  ghost predicate EndsRenewed(claims: seq<ServeClaim>, node: string, served: seq<Served>, last: Option<int>) {
    match last
    case None => true
    case Some(e) => |served| <= |claims| && claims[|claims| - |served|..] == Renewals(node, served, e)
  }

  ghost function Renewed(served: seq<Served>, last: Option<int>): nat {
    if last.None? then 0 else |served|
  }

  /** Ops before the last renewals that are no superseded claim. */
  ghost function Settled(ops: seq<Held>, k: nat): int
    requires k <= |Decoded(ops)|
  {
    |ops| - |Decoded(ops)| + |Unsuperseded(Decoded(ops), |Decoded(ops)| - k)|
  }

  /** A tick's renewals supersede the last tick's. */
  lemma RenewalsSupersede(claims: seq<ServeClaim>, node: string, served: seq<Served>, last: Option<int>, expiry: int)
    requires EndsRenewed(claims, node, served, last) && (last.Some? ==> last.value <= expiry)
    ensures var k, all := Renewed(served, last), claims + Renewals(node, served, expiry);
      && k <= |claims|
      && |Unsuperseded(all, |claims|)| <= |Unsuperseded(claims, |claims| - k)|
  {
    hide Unsuperseded, Superseded;
    var k, n, all := Renewed(served, last), |claims|, claims + Renewals(node, served, expiry);
    forall i | n - k <= i < n ensures Superseded(all, i) {
      var j := i - (n - k);
      assert claims[n - k..][j] == claims[i];
      assert Over(all[n + j], all[i]);
      SupersededBy(all, i, n + j);
    }
    RestSuperseded(all, n - k, n);
    MoreSupersede(claims, Renewals(node, served, expiry), n - k);
  }

  lemma SupersededBy(claims: seq<ServeClaim>, i: nat, j: nat)
    requires i < j < |claims| && Over(claims[j], claims[i])
    ensures Superseded(claims, i)
  {
  }

  /** One tick: what is settled before its renewals is no more than before it, and the chain is
      within its bound. */
  lemma TickStaysShort(c: Chain, node: string, served: seq<Served>, last: Option<int>, expiry: int, after: nat)
    requires InLine(c) && EndsRenewed(Decoded(c.ops), node, served, last) && (last.Some? ==> last.value <= expiry)
    requires Renewed(served, last) <= |Decoded(c.ops)|
    ensures var c', k := Tick(c, Renewals(node, served, expiry), after).0, |served|;
      && InLine(c') && EndsRenewed(Decoded(c'.ops), node, served, Some(expiry))
      && Settled(c'.ops, k) <= Settled(c.ops, Renewed(served, last))
      && |c'.ops| <= after + Settled(c.ops, Renewed(served, last)) + 2 * k
  {
    hide Unsuperseded, CountSuperseded, Decoded, InLine, Tick, EndsRenewed, Settled, Renewals, Due, Superseded;
    var claims, renewals, k := Decoded(c.ops), Renewals(node, served, expiry), Renewed(served, last);
    var (c', folded) := Tick(c, renewals, after);
    TickLeaves(c, renewals, after);
    RenewalsSupersede(claims, node, served, last, expiry);
    if folded.Some? {
      var carried := Unsuperseded(claims + renewals, |claims|);
      TailRenewed(carried, node, served, expiry);
      FoldSettles(c.ops, c'.ops, carried, renewals, k);
    } else {
      TailRenewed(claims, node, served, expiry);
      AppendSettles(c.ops, c'.ops, renewals, k, after);
    }
  }

  lemma TailRenewed(claims: seq<ServeClaim>, node: string, served: seq<Served>, expiry: int)
    ensures EndsRenewed(claims + Renewals(node, served, expiry), node, served, Some(expiry)) && |Renewals(node, served, expiry)| == |served|
  {
    var all := claims + Renewals(node, served, expiry);
    assert all[|all| - |served|..] == Renewals(node, served, expiry);
  }

  lemma FoldSettles(ops: seq<Held>, ops': seq<Held>, carried: seq<ServeClaim>, renewals: seq<ServeClaim>, k: nat)
    requires k <= |Decoded(ops)| && Decoded(ops') == carried + renewals && |ops'| == |carried| + |renewals|
    requires |carried| <= |Unsuperseded(Decoded(ops), |Decoded(ops)| - k)|
    ensures Settled(ops', |renewals|) <= |carried| <= Settled(ops, k)
  {
    hide Unsuperseded, Decoded;
    DecodedNoMore(ops);
    UnsupersededNoMore(carried + renewals, |carried|);
  }

  lemma AppendSettles(ops: seq<Held>, ops': seq<Held>, renewals: seq<ServeClaim>, k: nat, after: nat)
    requires k <= |Decoded(ops)| && k <= |renewals| && Decoded(ops') == Decoded(ops) + renewals && |ops'| == |ops| + |renewals|
    requires |Unsuperseded(Decoded(ops) + renewals, |Decoded(ops)|)| <= |Unsuperseded(Decoded(ops), |Decoded(ops)| - k)|
    requires Due(ops, renewals, after).base.None?
    ensures Settled(ops', |renewals|) <= Settled(ops, k)
    ensures |ops'| <= after + Settled(ops, k) + 2 * |renewals|
  {
    hide Unsuperseded, Decoded, CountSuperseded;
    var claims := Decoded(ops);
    DecodedNoMore(ops);
    CountedAll(claims, |claims|);
    RestCounts(claims, |claims| - k, |claims|);
  }

  function Ticks(nows: seq<int>, lease: int): seq<Turn> {
    seq(|nows|, i requires 0 <= i < |nows| => Renewing(nows[i] + lease))
  }

  /** The ops of the chain that are no superseded claim. */
  ghost function Unfoldable(ops: seq<Held>): int {
    |ops| - CountSuperseded(Decoded(ops), |Decoded(ops)|)
  }

  lemma {:induction false} TicksStayShort(start: Authority, nows: seq<int>, lease: int, after: nat)
    requires InLine(start.chain) && start.served != []
    requires forall i, j | 0 <= i < j < |nows| :: nows[i] <= nows[j]
    ensures var a, last := Run(start, Ticks(nows, lease), Some(after)), if nows == [] then None else Some(nows[|nows| - 1] + lease);
      && a.node == start.node && a.served == start.served && InLine(a.chain)
      && EndsRenewed(Decoded(a.chain.ops), a.node, a.served, last)
      && Renewed(a.served, last) <= |Decoded(a.chain.ops)|
      && Settled(a.chain.ops, Renewed(a.served, last)) <= Unfoldable(start.chain.ops)
      && (nows != [] ==> |a.chain.ops| <= after + Unfoldable(start.chain.ops) + 2 * |start.served|)
  {
    hide Unsuperseded, CountSuperseded, Decoded, InLine, Tick, Superseded;
    if nows == [] {
      CountedAll(Decoded(start.chain.ops), |Decoded(start.chain.ops)|);
    } else {
      var init, now := nows[..|nows| - 1], nows[|nows| - 1];
      var turns := Ticks(nows, lease);
      assert turns[..|turns| - 1] == Ticks(init, lease);
      TicksStayShort(start, init, lease, after);
      var a := Run(start, Ticks(init, lease), Some(after));
      var last := if init == [] then None else Some(init[|init| - 1] + lease);
      TickStaysShort(a.chain, a.node, a.served, last, now + lease, after);
    }
  }

  /** Over any run of ticks of one served set, on a clock that never goes back, the chain holds at
      most `after` ops past those no claim supersedes, and two renewals of each share. */
  lemma ChainStaysShort(start: Authority, nows: seq<int>, lease: int, after: nat)
    requires InLine(start.chain) && start.served != [] && nows != []
    requires forall i, j | 0 <= i < j < |nows| :: nows[i] <= nows[j]
    ensures |Run(start, Ticks(nows, lease), Some(after)).chain.ops| <= after + Unfoldable(start.chain.ops) + 2 * |start.served|
  {
    TicksStayShort(start, nows, lease, after);
  }
}
