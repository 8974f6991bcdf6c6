/** What the browser's store keeps over every run, that a sync leaves two stores with the same
    chains of a share, and that a dump loads back to what was dumped. */
module StoreLaws {
  import opened Wrappers
  import opened Bytes
  import opened Text
  import opened Ops
  import opened Sessions
  import opened Stores
  import F = Folds

  // What every step keeps.

  /** A chain's ops name it, follow one another by seq, and where one names the op before it, by
      that op's hash. */
  ghost predicate Linked(hash: Op -> seq<byte>, k: string, log: seq<Op>) {
    && (forall i | 0 <= i < |log| :: KeyOf(log[i]) == k && log[i].no == log[0].no + i)
    && (forall i | 0 < i < |log| :: log[i].prev.Some? ==> log[i].prev.value == hash(log[i - 1]))
  }

  ghost predicate Distinct(order: seq<string>) {
    forall i, j | 0 <= i < j < |order| :: order[i] != order[j]
  }

  ghost predicate Sound(s: Chains, hash: Op -> seq<byte>) {
    && Distinct(s.order) && (forall k :: k in s.order <==> k in s.logs)
    && forall k | k in s.logs :: s.logs[k] != [] && Linked(hash, k, s.logs[k])
  }

  datatype Event = Append(op: Op) | Drop(k: string, no: int)

  function Next(s: Chains, hash: Op -> seq<byte>, e: Event): Chains {
    match e
    case Append(op) => AppendOp(s, hash, op).0
    case Drop(k, no') => DropFrom(s, k, no')
  }

  function Run(hash: Op -> seq<byte>, events: seq<Event>): Chains {
    if events == [] then NONE else Next(Run(hash, events[..|events| - 1]), hash, events[|events| - 1])
  }

  lemma AppendKeeps(s: Chains, hash: Op -> seq<byte>, op: Op)
    requires Sound(s, hash)
    ensures Sound(AppendOp(s, hash, op).0, hash)
  {
    hide FirstAt, KeyOf, Linked, Push;
    if AppendOp(s, hash, op).1 == Appended {
      assert LogOf(s.logs, KeyOf(op)) == [] || Linked(hash, KeyOf(op), LogOf(s.logs, KeyOf(op)));
      LinkedOn(hash, LogOf(s.logs, KeyOf(op)), op);
      PushKeeps(s, hash, op);
    }
  }

  lemma LinkedOn(hash: Op -> seq<byte>, log: seq<Op>, op: Op)
    requires Judge(log, hash, op) == Appended && (log == [] || Linked(hash, KeyOf(op), log))
    ensures Linked(hash, KeyOf(op), log + [op])
  {
    hide FirstAt, KeyOf;
  }

  lemma PushKeeps(s: Chains, hash: Op -> seq<byte>, op: Op)
    requires Sound(s, hash) && Linked(hash, KeyOf(op), LogOf(s.logs, KeyOf(op)) + [op])
    ensures Sound(Push(s, op), hash)
  {
    hide KeyOf, Linked;
  }

  lemma {:induction false} WithoutKeyAre(order: seq<string>, k: string)
    requires Distinct(order)
    ensures Distinct(WithoutKey(order, k)) && forall j :: j in WithoutKey(order, k) <==> j in order && j != k
  {
    if order != [] {
      var init, last := order[..|order| - 1], order[|order| - 1];
      WithoutKeyAre(init, k);
      assert order == init + [last] && last !in init;
    }
  }

  lemma DropKeeps(s: Chains, hash: Op -> seq<byte>, k: string, no': int)
    requires Sound(s, hash)
    ensures Sound(DropFrom(s, k, no'), hash)
  {
    hide WithoutKey, Linked, FirstFrom;
    WithoutKeyAre(s.order, k);
    var log := LogOf(s.logs, k);
    var at := FirstFrom(log, no');
    if 0 < at < |log| { LinkedUpTo(hash, k, log, at); }
  }

  lemma LinkedUpTo(hash: Op -> seq<byte>, k: string, log: seq<Op>, n: nat)
    requires Linked(hash, k, log) && n <= |log|
    ensures Linked(hash, k, log[..n])
  {
    hide KeyOf;
  }

  /** Whatever is appended and dropped, in any order, every chain stays linked and in seq order. */
  lemma {:induction false} RunKeeps(hash: Op -> seq<byte>, events: seq<Event>)
    ensures Sound(Run(hash, events), hash)
  {
    if events != [] {
      hide Sound, AppendOp, DropFrom;
      RunKeeps(hash, events[..|events| - 1]);
      match events[|events| - 1] {
        case Append(op) => AppendKeeps(Run(hash, events[..|events| - 1]), hash, op);
        case Drop(k, no') => DropKeeps(Run(hash, events[..|events| - 1]), hash, k, no');
      }
    }
  }

  /** A fork is told apart from a repeat: at a seq a chain holds, the same op is a repeat, and one
      of another hash is an equivocation; neither changes the store. */
  lemma ForkIsRefused(s: Chains, hash: Op -> seq<byte>, op: Op, i: nat)
    requires Sound(s, hash) && i < |LogOf(s.logs, KeyOf(op))| && LogOf(s.logs, KeyOf(op))[i].no == op.no
    ensures var (s', judged) := AppendOp(s, hash, op);
      s' == s && judged == if hash(LogOf(s.logs, KeyOf(op))[i]) == hash(op) then Duplicate else Equivocation
  {
    hide KeyOf;
    var log := LogOf(s.logs, KeyOf(op));
    assert Linked(hash, KeyOf(op), log);
    var at := FirstAt(log, op.no);
    assert at <= i;
    assert log[at].no == log[0].no + at;
  }

  // Applying a chain.

  /** `s'` is `s` with the chain `k` made `log`. */
  ghost predicate Made(s: Chains, s': Chains, k: string, log: seq<Op>) {
    && LogOf(s'.logs, k) == log
    && (forall j | j != k :: (j in s'.logs <==> j in s.logs) && LogOf(s'.logs, j) == LogOf(s.logs, j))
    && (k in s.logs ==> k in s'.logs)
    && s'.order == if k !in s.logs && k in s'.logs then s.order + [k] else s.order
  }

  lemma PushMakes(s: Chains, op: Op)
    ensures Made(s, Push(s, op), KeyOf(op), LogOf(s.logs, KeyOf(op)) + [op])
  {
    hide KeyOf;
  }

  /** The next op of a chain is taken. */
  lemma NextTaken(s: Chains, hash: Op -> seq<byte>, k: string, chain: seq<Op>, n: nat)
    requires Linked(hash, k, chain) && n < |chain| && LogOf(s.logs, k) == chain[..n]
    ensures AppendOp(s, hash, chain[n]).1 == Appended && Made(s, AppendOp(s, hash, chain[n]).0, k, chain[..n + 1])
  {
    hide FirstAt, Made, KeyOf, Push;
    assert KeyOf(chain[n]) == k && chain[n].no == chain[0].no + n;
    if n > 0 {
      assert chain[..n][n - 1] == chain[n - 1] && chain[n - 1].no == chain[0].no + n - 1;
    }
    assert chain[..n] + [chain[n]] == chain[..n + 1];
    PushMakes(s, chain[n]);
  }

  lemma {:induction false} RestTaken(s: Chains, hash: Op -> seq<byte>, k: string, chain: seq<Op>, m: nat, n: nat)
    requires Sound(s, hash) && Linked(hash, k, chain) && m <= n <= |chain| && LogOf(s.logs, k) == chain[..m]
    ensures var s' := AppendAll(s, hash, chain[m..n]); Sound(s', hash) && Made(s, s', k, chain[..n])
  {
    hide Sound, Linked, AppendOp;
    if m < n {
      RestTaken(s, hash, k, chain, m, n - 1);
      assert chain[m..n][..n - 1 - m] == chain[m..n - 1] && chain[m..n][n - 1 - m] == chain[n - 1];
      var s1 := AppendAll(s, hash, chain[m..n - 1]);
      NextTaken(s1, hash, k, chain, n - 1);
      AppendKeeps(s1, hash, chain[n - 1]);
      MadeAgain(s, s1, AppendOp(s1, hash, chain[n - 1]).0, k, chain, n - 1);
    } else {
      assert chain[m..n] == [];
    }
  }

  lemma MadeAgain(s: Chains, s1: Chains, s2: Chains, k: string, chain: seq<Op>, n: nat)
    requires n < |chain| && Made(s, s1, k, chain[..n]) && Made(s1, s2, k, chain[..n + 1])
    ensures Made(s, s2, k, chain[..n + 1])
  {
    assert k in s2.logs;
  }

  lemma {:induction false} AppendMore(s: Chains, hash: Op -> seq<byte>, a: seq<Op>, b: seq<Op>)
    ensures AppendAll(s, hash, a + b) == AppendAll(AppendAll(s, hash, a), hash, b)
  {
    hide AppendOp;
    if b == [] {
      assert a + b == a;
    } else {
      AppendMore(s, hash, a, b[..|b| - 1]);
      assert (a + b)[..|a + b| - 1] == a + b[..|b| - 1];
    }
  }

  // A sync.

  predicate IsPast(op: Op, from: Option<int>) {
    from.None? || op.no > from.value
  }

  /** The ops past a seq are the chain's tail. */
  lemma {:induction false} PastIsTail(log: seq<Op>, from: Option<int>, m: nat)
    requires m <= |log| && (forall i | 0 <= i < m :: !IsPast(log[i], from)) && forall i | m <= i < |log| :: IsPast(log[i], from)
    ensures Past(log, from) == log[m..]
  {
    if log != [] {
      var n := |log| - 1;
      if m <= n {
        PastIsTail(log[..n], from, m);
        assert log[m..] == log[..n][m..] + [log[n]];
      } else {
        PastIsTail(log[..n], from, n);
        assert log[..n][n..] == [] && log[m..] == [];
      }
    }
  }

  function Longer(a: seq<Op>, b: seq<Op>): seq<Op> {
    if |a| > |b| then a else b
  }

  /** Neither store forks the other's chains of the share. */
  ghost predicate Comparable(a: Logs, b: Logs, share: string) {
    forall k | OfShare(share, k) :: LogOf(a, k) <= LogOf(b, k) || LogOf(b, k) <= LogOf(a, k)
  }

  /** Past a peer's head, a chain it holds less of is the rest, and one it holds more of, nothing. */
  lemma PastHead(hash: Op -> seq<byte>, la: seq<Op>, b: Chains, share: string, k: string)
    requires Sound(b, hash) && Linked(hash, k, la) && la != [] && OfShare(share, k)
    requires la <= LogOf(b.logs, k) || LogOf(b.logs, k) <= la
    ensures var m := |LogOf(b.logs, k)|;
      Past(la, HeadIn(Heads(b, share), k)) == if m <= |la| then la[m..] else []
  {
    hide OfShare, KeyOf, Past;
    var lb := LogOf(b.logs, k);
    var from := HeadIn(Heads(b, share), k);
    if lb != [] {
      assert Linked(hash, k, lb) && from == Some(lb[|lb| - 1].no);
      assert lb[0] == la[0] && lb[|lb| - 1].no == lb[0].no + |lb| - 1;
    }
    forall i | 0 <= i < |la| ensures IsPast(la[i], from) <==> i >= |lb| {
      assert la[i].no == la[0].no + i;
    }
    PastIsTail(la, from, if |lb| <= |la| then |lb| else |la|);
    assert la[|la|..] == [];
  }

  /** What one chain's missing ops bring. */
  lemma PullChain(a: Chains, b: Chains, s: Chains, hash: Op -> seq<byte>, share: string, k: string)
    requires Sound(a, hash) && Sound(b, hash) && Sound(s, hash) && Comparable(a.logs, b.logs, share)
    requires OfShare(share, k) && k in a.logs && LogOf(s.logs, k) == LogOf(b.logs, k)
    ensures var s' := AppendAll(s, hash, Past(LogOf(a.logs, k), HeadIn(Heads(b, share), k)));
      Sound(s', hash) && Made(s, s', k, Longer(LogOf(a.logs, k), LogOf(b.logs, k)))
  {
    var la, lb := LogOf(a.logs, k), LogOf(b.logs, k);
    hide OfShare, Heads, HeadIn, Past, Linked, Made, AppendAll;
    assert la != [] && Linked(hash, k, la);
    assert la <= lb || lb <= la;
    hide Sound, LogOf, Comparable;
    PastHead(hash, la, b, share, k);
    if |lb| <= |la| {
      assert la[|lb|..|la|] == la[|lb|..] && la[..|la|] == la && lb == la[..|lb|];
      RestTaken(s, hash, k, la, |lb|, |la|);
    } else {
      MadeItself(s, hash, k);
    }
  }

  lemma MadeItself(s: Chains, hash: Op -> seq<byte>, k: string)
    ensures AppendAll(s, hash, []) == s && Made(s, s, k, LogOf(s.logs, k))
  {
  }

  /** The chains pulled so far are the longer of the two. */
  ghost predicate Pulled(a: Logs, b: Logs, s: Logs, share: string, some: seq<string>) {
    forall k :: LogOf(s, k) == if OfShare(share, k) && k in some then Longer(LogOf(a, k), LogOf(b, k)) else LogOf(b, k)
  }

  lemma {:induction false} PullUpTo(a: Chains, b: Chains, hash: Op -> seq<byte>, share: string, n: nat)
    requires Sound(a, hash) && Sound(b, hash) && Comparable(a.logs, b.logs, share) && n <= |a.order|
    ensures var s := AppendAll(b, hash, Missing(a.logs, a.order[..n], share, Heads(b, share)));
      Sound(s, hash) && Pulled(a.logs, b.logs, s.logs, share, a.order[..n])
  {
    hide OfShare, Heads, Sound, Comparable, Past, AppendAll, Pulled;
    if n == 0 {
      NothingPulled(a.logs, b, hash, share);
      assert a.order[..0] == [];
    } else {
      var k, their, some := a.order[n - 1], Heads(b, share), a.order[..n - 1];
      PullUpTo(a, b, hash, share, n - 1);
      assert a.order[..n][..n - 1] == some && a.order[..n] == some + [k];
      var before := Missing(a.logs, some, share, their);
      var s := AppendAll(b, hash, before);
      KeysOnce(a, hash, n - 1);
      if OfShare(share, k) {
        var past := Past(LogOf(a.logs, k), HeadIn(their, k));
        AppendMore(b, hash, before, past);
        assert LogOf(s.logs, k) == LogOf(b.logs, k) by { NotYetPulled(a.logs, b.logs, s.logs, share, some, k); }
        PullChain(a, b, s, hash, share, k);
        PulledOne(a.logs, b.logs, s, AppendAll(s, hash, past), share, some, k);
      } else {
        assert before + [] == before;
        PulledNot(a.logs, b.logs, s.logs, share, some, k);
      }
    }
  }

  lemma NothingPulled(a: Logs, b: Chains, hash: Op -> seq<byte>, share: string)
    ensures AppendAll(b, hash, []) == b && Pulled(a, b.logs, b.logs, share, [])
  {
  }

  lemma NotYetPulled(a: Logs, b: Logs, s: Logs, share: string, some: seq<string>, k: string)
    requires Pulled(a, b, s, share, some) && k !in some
    ensures LogOf(s, k) == LogOf(b, k)
  {
    hide LogOf;
  }

  lemma PulledOne(a: Logs, b: Logs, s: Chains, s': Chains, share: string, some: seq<string>, k: string)
    requires Pulled(a, b, s.logs, share, some) && OfShare(share, k) && Made(s, s', k, Longer(LogOf(a, k), LogOf(b, k)))
    ensures Pulled(a, b, s'.logs, share, some + [k])
  {
    hide LogOf, OfShare;
  }

  lemma PulledNot(a: Logs, b: Logs, s: Logs, share: string, some: seq<string>, k: string)
    requires Pulled(a, b, s, share, some) && !OfShare(share, k)
    ensures Pulled(a, b, s, share, some + [k])
  {
    hide LogOf, OfShare;
  }

  lemma KeysOnce(a: Chains, hash: Op -> seq<byte>, n: nat)
    requires Sound(a, hash) && n < |a.order|
    ensures a.order[n] !in a.order[..n] && a.order[n] in a.logs
  {
    assert a.order[n] in a.order;
  }

  /** A store that applies what another says it is missing of a share holds, of each of the
      share's chains, the longer of the two, and of every other chain what it held. */
  lemma Pull(a: Chains, b: Chains, hash: Op -> seq<byte>, share: string)
    requires Sound(a, hash) && Sound(b, hash) && Comparable(a.logs, b.logs, share)
    ensures var s := AppendAll(b, hash, MissingFor(a, share, Heads(b, share)));
      && Sound(s, hash)
      && forall k :: LogOf(s.logs, k) == if OfShare(share, k) then Longer(LogOf(a.logs, k), LogOf(b.logs, k)) else LogOf(b.logs, k)
  {
    hide OfShare, Heads, Missing;
    PullUpTo(a, b, hash, share, |a.order|);
    assert a.order[..|a.order|] == a.order;
    var s := AppendAll(b, hash, MissingFor(a, share, Heads(b, share)));
    forall k ensures LogOf(s.logs, k) == if OfShare(share, k) then Longer(LogOf(a.logs, k), LogOf(b.logs, k)) else LogOf(b.logs, k) {
      if k !in a.order { assert Longer(LogOf(a.logs, k), LogOf(b.logs, k)) == LogOf(b.logs, k); }
    }
  }

  /** Each applying the other's missing ops, two stores that fork no chain of the share end with
      the same chains of it, each the longer of what the two held, and keep the rest. */
  lemma SyncAgrees(a: Chains, b: Chains, hash: Op -> seq<byte>, share: string)
    requires Sound(a, hash) && Sound(b, hash) && Comparable(a.logs, b.logs, share)
    ensures var a' := AppendAll(a, hash, MissingFor(b, share, Heads(a, share)));
      var b' := AppendAll(b, hash, MissingFor(a, share, Heads(b, share)));
      && (forall k | OfShare(share, k) ::
            && (k in a'.logs <==> k in b'.logs) && LogOf(a'.logs, k) == LogOf(b'.logs, k)
            && LogOf(a.logs, k) <= LogOf(a'.logs, k) && LogOf(b.logs, k) <= LogOf(a'.logs, k))
      && (forall k | !OfShare(share, k) :: LogOf(a'.logs, k) == LogOf(a.logs, k) && LogOf(b'.logs, k) == LogOf(b.logs, k))
  {
    hide OfShare, Heads, Missing, MissingFor;
    Pull(a, b, hash, share);
    Pull(b, a, hash, share);
    var a' := AppendAll(a, hash, MissingFor(b, share, Heads(a, share)));
    var b' := AppendAll(b, hash, MissingFor(a, share, Heads(b, share)));
    forall k | OfShare(share, k)
      ensures LogOf(a'.logs, k) == LogOf(b'.logs, k) && LogOf(a.logs, k) <= LogOf(a'.logs, k) && LogOf(b.logs, k) <= LogOf(a'.logs, k)
    {
      assert LogOf(a.logs, k) <= LogOf(b.logs, k) || LogOf(b.logs, k) <= LogOf(a.logs, k);
    }
    forall k | OfShare(share, k) ensures k in a'.logs <==> k in b'.logs {
      assert k in a'.logs <==> LogOf(a'.logs, k) != [];
      assert k in b'.logs <==> LogOf(b'.logs, k) != [];
    }
  }

  /** With no NUL in its names, a share's chains are those of its own ops, so a sync leaves two
      stores with the same ops of the share. */
  lemma SyncedOps(a: Chains, b: Chains, hash: Op -> seq<byte>, share: string, op: Op)
    requires Sound(a, hash) && Sound(b, hash) && Comparable(a.logs, b.logs, share)
    requires NoNul(share) && Plain(ZoneOf(op))
    ensures var a' := AppendAll(a, hash, MissingFor(b, share, Heads(a, share)));
      var b' := AppendAll(b, hash, MissingFor(a, share, Heads(b, share)));
      if op.share == share
      then (op in LogOf(a'.logs, KeyOf(op)) <==> op in LogOf(b'.logs, KeyOf(op)))
           && (op in LogOf(a.logs, KeyOf(op)) || op in LogOf(b.logs, KeyOf(op)) ==> op in LogOf(a'.logs, KeyOf(op)))
      else (op in LogOf(a'.logs, KeyOf(op)) <==> op in LogOf(a.logs, KeyOf(op)))
  {
    hide Heads, Missing, MissingFor, AppendAll, Sound, Comparable;
    SyncAgrees(a, b, hash, share);
    KeysNameChains(share, op.gladeId, op.key, "", op.share, op.gladeId, op.key, op.origin);
    assert OfShare(share, KeyOf(op)) <==> op.share == share;
  }

  // The folds of a synced share.

  lemma {:induction false} OpsInAre(logs: Logs, order: seq<string>, prefix: string, op: Op)
    ensures op in OpsIn(logs, order, prefix) <==> exists k | k in order :: prefix <= k && op in LogOf(logs, k)
  {
    if order != [] {
      var init, k := order[..|order| - 1], order[|order| - 1];
      assert order == init + [k];
      OpsInAre(logs, init, prefix, op);
    }
  }

  lemma OpsForAre(s: Chains, hash: Op -> seq<byte>, z: Zone, op: Op)
    requires Sound(s, hash)
    ensures op in OpsFor(s, z) <==> PrefixOf(z) <= KeyOf(op) && op in LogOf(s.logs, KeyOf(op))
  {
    hide KeyOf, PrefixOf, OpsIn;
    OpsInAre(s.logs, s.order, PrefixOf(z), op);
    if k :| k in s.order && PrefixOf(z) <= k && op in LogOf(s.logs, k) {
      assert Linked(hash, k, s.logs[k]);
    }
  }

  /** Of a sound store, each slot of a zone named without NULs is one op's. */
  lemma ZoneAgrees(s: Chains, hash: Op -> seq<byte>, z: Zone)
    requires Sound(s, hash) && Plain(z) && forall k, o | k in s.logs && o in s.logs[k] :: Plain(ZoneOf(o))
    ensures F.Agrees(OpsFor(s, z))
  {
    hide OpsFor, PrefixOf;
    forall a, b | a in OpsFor(s, z) && b in OpsFor(s, z) && Slot(a) == Slot(b) ensures a == b {
      OpsForAre(s, hash, z, a);
      OpsForAre(s, hash, z, b);
      OneChain(s, hash, z, a, b);
    }
  }

  lemma OneChain(s: Chains, hash: Op -> seq<byte>, z: Zone, a: Op, b: Op)
    requires Sound(s, hash) && Plain(z) && Slot(a) == Slot(b) && Plain(ZoneOf(a)) && Plain(ZoneOf(b))
    requires PrefixOf(z) <= KeyOf(a) && a in LogOf(s.logs, KeyOf(a)) && PrefixOf(z) <= KeyOf(b) && b in LogOf(s.logs, KeyOf(b))
    ensures a == b
  {
    hide ChainKey, ZonePrefix;
    KeysNameChains(z.share, z.gladeId, z.key, "", a.share, a.gladeId, a.key, a.origin);
    KeysNameChains(z.share, z.gladeId, z.key, "", b.share, b.gladeId, b.key, b.origin);
    var k := KeyOf(a);
    assert KeyOf(b) == k && k in s.logs && Linked(hash, k, s.logs[k]);
    var i :| 0 <= i < |s.logs[k]| && s.logs[k][i] == a;
    var j :| 0 <= j < |s.logs[k]| && s.logs[k][j] == b;
  }

  /** After a sync, each zone of the share lists the same ops in the two stores: so each zone's log
      folds alike, and its value too where the ops that rank highest carry one payload. */
  lemma SyncedFolds(a: Chains, b: Chains, hash: Op -> seq<byte>, z: Zone, ra: F.Folded<seq<seq<byte>>>, rb: F.Folded<seq<seq<byte>>>)
    requires Sound(a, hash) && Sound(b, hash) && Comparable(a.logs, b.logs, z.share) && Plain(z)
    requires forall k, o | k in a.logs && o in a.logs[k] :: Plain(ZoneOf(o))
    requires forall k, o | k in b.logs && o in b.logs[k] :: Plain(ZoneOf(o))
    requires var a' := AppendAll(a, hash, MissingFor(b, z.share, Heads(a, z.share)));
      var b' := AppendAll(b, hash, MissingFor(a, z.share, Heads(b, z.share)));
      F.FoldsLog(OpsFor(a', z), ra) && F.FoldsLog(OpsFor(b', z), rb)
    ensures var a' := AppendAll(a, hash, MissingFor(b, z.share, Heads(a, z.share)));
      var b' := AppendAll(b, hash, MissingFor(a, z.share, Heads(b, z.share)));
      && F.SameOps(OpsFor(a', z), OpsFor(b', z)) && ra == rb
      && ((forall x, y | F.Top(OpsFor(a', z), x) && F.Top(OpsFor(a', z), y) :: x.payload == y.payload)
            ==> F.FoldValue(OpsFor(a', z)) == F.FoldValue(OpsFor(b', z)))
  {
    hide Heads, Missing, MissingFor, AppendAll, OpsFor, Sound, LogOf, ZoneOf, F.FoldsLog, F.FoldValue, F.Top, F.Agrees, F.SameOps;
    var share := z.share;
    var a' := AppendAll(a, hash, MissingFor(b, share, Heads(a, share)));
    var b' := AppendAll(b, hash, MissingFor(a, share, Heads(b, share)));
    Pull(a, b, hash, share);
    Pull(b, a, hash, share);
    SyncAgrees(a, b, hash, share);
    SameZone(a', b', hash, z);
    StillPlain(a, b, a', share);
    ZoneAgrees(a', hash, z);
    FoldsOfOneSet(OpsFor(a', z), OpsFor(b', z), ra, rb);
  }

  lemma FoldsOfOneSet(x: seq<Op>, y: seq<Op>, rx: F.Folded<seq<seq<byte>>>, ry: F.Folded<seq<seq<byte>>>)
    requires F.Agrees(x) && F.SameOps(x, y) && F.FoldsLog(x, rx) && F.FoldsLog(y, ry)
    ensures rx == ry
    ensures (forall a, b | F.Top(x, a) && F.Top(x, b) :: a.payload == b.payload) <==> forall o | F.SameOps(x, o) :: F.FoldValue(o) == F.FoldValue(x)
  {
    hide F.FoldsLog, F.FoldValue, F.Top, F.Agrees, F.Contender, F.SomeFork, F.SomeStraddled;
    F.AgreeingIsSimple(x);
    F.LogIsOfTheSet(x);
    F.ValueIsOfTheSet(x);
  }

  lemma SameZone(a: Chains, b: Chains, hash: Op -> seq<byte>, z: Zone)
    requires Sound(a, hash) && Sound(b, hash) && forall k | OfShare(z.share, k) :: LogOf(a.logs, k) == LogOf(b.logs, k)
    ensures F.SameOps(OpsFor(a, z), OpsFor(b, z))
  {
    hide OpsFor, PrefixOf, KeyOf, Sound;
    forall o ensures o in OpsFor(a, z) <==> o in OpsFor(b, z) {
      OpsForAre(a, hash, z, o);
      OpsForAre(b, hash, z, o);
      ZoneInShare(z, KeyOf(o));
    }
  }

  lemma StillPlain(a: Chains, b: Chains, s: Chains, share: string)
    requires forall k :: LogOf(s.logs, k) == if OfShare(share, k) then Longer(LogOf(b.logs, k), LogOf(a.logs, k)) else LogOf(a.logs, k)
    requires forall k, o | k in a.logs && o in a.logs[k] :: Plain(ZoneOf(o))
    requires forall k, o | k in b.logs && o in b.logs[k] :: Plain(ZoneOf(o))
    ensures forall k, o | k in s.logs && o in s.logs[k] :: Plain(ZoneOf(o))
  {
    hide OfShare, Plain, ZoneOf;
    forall k, o | k in s.logs && o in s.logs[k] ensures Plain(ZoneOf(o)) {
      assert LogOf(s.logs, k) == s.logs[k];
      assert o in LogOf(a.logs, k) || o in LogOf(b.logs, k);
    }
  }

  lemma ZoneInShare(z: Zone, k: string)
    ensures PrefixOf(z) <= k ==> OfShare(z.share, k)
  {
    assert PrefixOf(z)[..|z.share| + 1] == z.share + [NUL];
    assert PrefixOf(z) <= k ==> k[..|z.share| + 1] == PrefixOf(z)[..|z.share| + 1];
  }

  // A dump.

  /** The first `n` chains of a store. */
  ghost function Part(s: Chains, n: nat): Chains
    requires n <= |s.order|
  {
    Chains(s.order[..n], map k | k in s.logs && k in s.order[..n] :: s.logs[k])
  }

  lemma {:induction false} LoadTakes(hash: Op -> seq<byte>, ops: seq<Op>, t: Chains, k: string, chain: seq<Op>, n: nat)
    requires Load(hash, ops) == Some(t) && Sound(t, hash) && Linked(hash, k, chain) && n <= |chain| && k !in t.logs
    ensures Load(hash, ops + chain[..n]) == Some(AppendAll(t, hash, chain[..n]))
  {
    hide Sound, Linked, AppendOp, Load, Made;
    if n == 0 {
      assert ops + chain[..0] == ops;
    } else {
      LoadTakes(hash, ops, t, k, chain, n - 1);
      assert chain[0..n - 1] == chain[..n - 1];
      RestTaken(t, hash, k, chain, 0, n - 1);
      var t1 := AppendAll(t, hash, chain[..n - 1]);
      assert LogOf(t1.logs, k) == chain[..n - 1] by { MadeIs(t, t1, k, chain[..n - 1]); }
      NextTaken(t1, hash, k, chain, n - 1);
      LoadMore(hash, ops + chain[..n - 1], t1, chain[n - 1]);
      assert ops + chain[..n - 1] + [chain[n - 1]] == ops + chain[..n];
      assert chain[..n][..n - 1] == chain[..n - 1];
    }
  }

  lemma MadeIs(s: Chains, s': Chains, k: string, log: seq<Op>)
    requires Made(s, s', k, log)
    ensures LogOf(s'.logs, k) == log
  {
  }

  lemma LoadMore(hash: Op -> seq<byte>, ops: seq<Op>, t: Chains, op: Op)
    requires Load(hash, ops) == Some(t) && AppendOp(t, hash, op).1 == Appended
    ensures Load(hash, ops + [op]) == Some(AppendOp(t, hash, op).0)
  {
    hide AppendOp;
    assert (ops + [op])[..|ops|] == ops;
  }

  lemma {:induction false} LoadUpTo(s: Chains, hash: Op -> seq<byte>, n: nat)
    requires Sound(s, hash) && n <= |s.order|
    ensures Load(hash, Concat(s.logs, s.order[..n])) == Some(Part(s, n)) && Sound(Part(s, n), hash)
  {
    hide Linked, AppendAll, Load;
    if n == 0 {
      assert Part(s, 0) == NONE;
      LoadNone(hash);
    } else {
      LoadUpTo(s, hash, n - 1);
      var k, t := s.order[n - 1], Part(s, n - 1);
      KeysOnce(s, hash, n - 1);
      var chain := s.logs[k];
      assert s.order[..n] == s.order[..n - 1] + [k];
      assert chain[..|chain|] == chain == chain[0..|chain|];
      LoadTakes(hash, Concat(s.logs, s.order[..n - 1]), t, k, chain, |chain|);
      RestTaken(t, hash, k, chain, 0, |chain|);
      PartMade(s, hash, AppendAll(t, hash, chain), n);
    }
  }

  lemma LoadNone(hash: Op -> seq<byte>)
    ensures Load(hash, []) == Some(NONE)
  {
  }

  lemma PartMade(s: Chains, hash: Op -> seq<byte>, t: Chains, n: nat)
    requires Sound(s, hash) && Sound(t, hash) && 0 < n <= |s.order| && s.order[n - 1] !in s.order[..n - 1]
    requires s.order[n - 1] in s.logs && Made(Part(s, n - 1), t, s.order[n - 1], s.logs[s.order[n - 1]])
    ensures t == Part(s, n)
  {
    hide Linked;
    var k := s.order[n - 1];
    assert s.order[..n] == s.order[..n - 1] + [k];
    assert k in t.logs;
    forall j ensures (j in t.logs <==> j in Part(s, n).logs) && (j in t.logs ==> t.logs[j] == Part(s, n).logs[j]) {
    }
    assert t.logs == Part(s, n).logs;
  }

  /** A dump loads back to the store it was taken of: the same chains, in the same order. */
  lemma LoadRebuilds(s: Chains, hash: Op -> seq<byte>)
    requires Sound(s, hash)
    ensures Load(hash, Dump(s)) == Some(s)
  {
    hide Load, Concat, Linked;
    LoadUpTo(s, hash, |s.order|);
    assert s.order[..|s.order|] == s.order;
    PartWhole(s, hash);
  }

  lemma PartWhole(s: Chains, hash: Op -> seq<byte>)
    requires Sound(s, hash)
    ensures Part(s, |s.order|) == s
  {
    hide Linked;
    assert s.order[..|s.order|] == s.order;
    assert Part(s, |s.order|).logs == s.logs;
  }
}
