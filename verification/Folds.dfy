/**
 The browser's folds: a repeat collapses, a fork throws, the last writer's value or the log in
 order is what is left; and how far each is a function of the op-set alone.
 */
module Folds {
  import opened Wrappers
  import opened Bytes
  import opened Text
  import opened Ops
  import opened Sessions
  import SessionLaws
  import SessionLog

  /** Two ops of one slot that are not one op: an equivocation. */
  predicate Forks(a: Op, b: Op) {
    Slot(a) == Slot(b) && (a.payload != b.payload || a.prev != b.prev)
  }

  function AtSlot(live: seq<Op>, op: Op): (at: nat)
    ensures at <= |live| && (at < |live| ==> Slot(live[at]) == Slot(op)) && forall i | 0 <= i < at :: Slot(live[i]) != Slot(op)
  {
    if live == [] || Slot(live[0]) == Slot(op) then 0 else 1 + AtSlot(live[1..], op)
  }

  /** The first op of each slot, in the order seen; none when two fork. */
  function Dedup(ops: seq<Op>): Option<seq<Op>> {
    if ops == [] then Some([])
    else
      match Dedup(ops[..|ops| - 1])
      case None => None
      case Some(live) =>
        var op := ops[|ops| - 1];
        var at := AtSlot(live, op);
        if at == |live| then Some(live + [op]) else if Forks(live[at], op) then None else Some(live)
  }

  /** The highest by (lamport, origin), the first of those that rank alike. */
  function Winner(live: seq<Op>): Op
    requires live != []
  {
    if |live| == 1 then live[0]
    else
      var win, o := Winner(live[..|live| - 1]), live[|live| - 1];
      if Better(o, win) then o else win
  }

  datatype Folded<T> = Folded(value: T) | Equivocation

  function FoldValue(ops: seq<Op>): Folded<Option<seq<byte>>> {
    match Dedup(ops)
    case None => Equivocation
    case Some(live) => Folded(if live == [] then None else Some(Winner(live).payload))
  }

  /** `r` is the log: the payloads by (lamport, origin, seq). */
  ghost predicate FoldsLog(ops: seq<Op>, r: Folded<seq<seq<byte>>>) {
    match Dedup(ops)
    case None => r == Equivocation
    case Some(live) => exists sorted: seq<Op> :: Arranges(sorted, live) && r == Folded(Payloads(sorted))
  }

  ghost predicate Arranges(sorted: seq<Op>, live: seq<Op>) {
    Ordered(sorted) && forall o :: o in sorted <==> o in live
  }

  method DedupOps(ops: seq<Op>) returns (live: Option<seq<Op>>)
    ensures live == Dedup(ops)
  {
    var seen: seq<Op> := [];
    for i := 0 to |ops|
      invariant Dedup(ops[..i]) == Some(seen)
    {
      assert ops[..i + 1][..i] == ops[..i];
      var at := 0;
      while at < |seen| && Slot(seen[at]) != Slot(ops[i])
        invariant at <= |seen| && forall j | 0 <= j < at :: Slot(seen[j]) != Slot(ops[i])
      {
        at := at + 1;
      }
      assert at == AtSlot(seen, ops[i]);
      if at == |seen| {
        seen := seen + [ops[i]];
      } else if Forks(seen[at], ops[i]) {
        StaysForked(ops, i + 1);
        return None;
      }
    }
    assert ops[..|ops|] == ops;
    return Some(seen);
  }

  lemma {:induction false} StaysForked(ops: seq<Op>, n: nat)
    requires n <= |ops| && Dedup(ops[..n]).None?
    ensures Dedup(ops).None?
    decreases |ops| - n
  {
    if n < |ops| {
      assert ops[..n + 1][..n] == ops[..n];
      StaysForked(ops, n + 1);
    } else {
      assert ops[..n] == ops;
    }
  }

  method Value(ops: seq<Op>) returns (r: Folded<Option<seq<byte>>>)
    ensures r == FoldValue(ops)
  {
    var live := DedupOps(ops);
    if live.None? {
      return Equivocation;
    }
    var ls := live.value;
    if ls == [] {
      return Folded(None);
    }
    var win := ls[0];
    assert ls[..1] == [ls[0]];
    for i := 1 to |ls|
      invariant win == Winner(ls[..i])
    {
      assert ls[..i + 1][..i] == ls[..i];
      if Better(ls[i], win) {
        win := ls[i];
      }
    }
    assert ls[..|ls|] == ls;
    return Folded(Some(win.payload));
  }

  method Log(ops: seq<Op>) returns (r: Folded<seq<seq<byte>>>)
    ensures FoldsLog(ops, r)
  {
    var live := DedupOps(ops);
    if live.None? {
      return Equivocation;
    }
    DedupIs(ops);
    var ls, sorted := live.value, [];
    for i := 0 to |ls|
      invariant Arranges(sorted, ls[..i])
    {
      assert ls[..i + 1] == ls[..i] + [ls[i]];
      sorted := SessionLog.Insert(sorted, ls[i]);
    }
    assert ls[..|ls|] == ls;
    return Folded(Payloads(sorted));
  }

  /** One op a slot is kept, of those seen, for every op; and one throws only when two fork. */
  lemma {:induction false} DedupIs(ops: seq<Op>)
    ensures match Dedup(ops)
      case None => exists a, b | a in ops && b in ops :: Forks(a, b)
      case Some(live) =>
        && SlotsDiffer(live) && (forall l | l in live :: l in ops)
        && (forall o | o in ops :: Kept(live, o))
  {
    hide Forks, Slot;
    if ops != [] {
      var init, op := ops[..|ops| - 1], ops[|ops| - 1];
      assert ops == init + [op];
      DedupIs(init);
      if Dedup(init).Some? {
        DedupOne(init, Dedup(init).value, op);
      } else {
        var a, b :| a in init && b in init && Forks(a, b);
        assert a in ops && b in ops;
      }
    }
  }

  /** An op of its slot, with its payload and prev, is in `live`. */
  ghost predicate Kept(live: seq<Op>, o: Op) {
    exists l | l in live :: Slot(l) == Slot(o) && !Forks(l, o)
  }

  lemma DedupOne(init: seq<Op>, live: seq<Op>, op: Op)
    requires Dedup(init) == Some(live) && SlotsDiffer(live) && (forall l | l in live :: l in init) && forall o | o in init :: Kept(live, o)
    ensures var ops := init + [op]; var at := AtSlot(live, op);
      if at < |live| && Forks(live[at], op) then live[at] in ops && op in ops
      else var live' := if at == |live| then live + [op] else live;
        SlotsDiffer(live') && (forall l | l in live' :: l in ops) && forall o | o in ops :: Kept(live', o)
  {
    var ops, at := init + [op], AtSlot(live, op);
    if at < |live| && Forks(live[at], op) {
      assert live[at] in live;
    } else {
      var live' := if at == |live| then live + [op] else live;
      forall o | o in ops ensures Kept(live', o) {
        if o in init {
          var l :| l in live && Slot(l) == Slot(o) && !Forks(l, o);
          assert l in live';
        } else if at < |live| {
          assert live[at] in live';
        } else {
          assert op in live' && !Forks(op, op);
        }
      }
    }
  }

  /** The folds throw exactly when two ops of one slot differ in payload or predecessor. */
  lemma EquivocationIsAFork(ops: seq<Op>)
    ensures Dedup(ops).None? <==> exists a, b | a in ops && b in ops :: Forks(a, b)
  {
    hide Dedup, Forks, Kept, SlotsDiffer;
    DedupIs(ops);
    if Dedup(ops).Some? {
      forall a, b | a in ops && b in ops ensures !Forks(a, b) {
        KeptAgree(Dedup(ops).value, a, b);
      }
    }
  }

  lemma KeptAgree(live: seq<Op>, a: Op, b: Op)
    requires SlotsDiffer(live) && Kept(live, a) && Kept(live, b)
    ensures !Forks(a, b)
  {
    hide SlotsDiffer;
    var x :| x in live && Slot(x) == Slot(a) && !Forks(x, a);
    var y :| y in live && Slot(y) == Slot(b) && !Forks(y, b);
    if Slot(a) == Slot(b) { OnePerSlot(live, x, y); }
  }

  lemma OnePerSlot(live: seq<Op>, x: Op, y: Op)
    requires SlotsDiffer(live) && x in live && y in live && Slot(x) == Slot(y)
    ensures x == y
  {
    var i :| 0 <= i < |live| && live[i] == x;
    var j :| 0 <= j < |live| && live[j] == y;
  }

  // What a fold says of a set of ops.

  ghost predicate SameOps(a: seq<Op>, b: seq<Op>) {
    forall o :: o in a <==> o in b
  }

  /** A slot's repeats are repeats of one op. */
  ghost predicate Agrees(ops: seq<Op>) {
    forall a, b | a in ops && b in ops && Slot(a) == Slot(b) :: a == b
  }

  /** An op none of `ops` ranks above. */
  ghost predicate Top(ops: seq<Op>, op: Op) {
    op in ops && forall o | o in ops :: !Better(o, op)
  }

  lemma BetterOrder(a: Op, b: Op, c: Op)
    ensures !(Better(a, b) && Better(b, a))
    ensures Better(a, b) && !Better(c, b) ==> !Better(c, a)
    ensures Better(a, b) && Better(b, c) ==> Better(a, c)
  {
    BeforeTotal(a.origin, b.origin);
    BeforeTotal(b.origin, c.origin);
    BeforeTotal(a.origin, c.origin);
    if Before(c.origin, b.origin) && Before(b.origin, a.origin) { BeforeTransitive(c.origin, b.origin, a.origin); }
    if Before(b.origin, a.origin) && Before(a.origin, c.origin) { BeforeTransitive(b.origin, a.origin, c.origin); }
  }

  /** The winner is of the highest, and the first op seen wins if it is one of them. */
  lemma {:induction false} WinnerIsTop(live: seq<Op>)
    requires live != []
    ensures Top(live, Winner(live)) && (Top(live, live[0]) ==> Winner(live) == live[0])
  {
    hide Better;
    if |live| == 1 {
      BetterOrder(live[0], live[0], live[0]);
    } else {
      var init, o := live[..|live| - 1], live[|live| - 1];
      assert live == init + [o];
      WinnerIsTop(init);
      var win := Winner(init);
      BetterOrder(o, o, o);
      forall x | x in live ensures !Better(x, Winner(live)) {
        BetterOrder(o, win, x);
      }
      if Top(live, live[0]) {
        assert live[0] == init[0] && init[0] in init;
        assert Top(init, init[0]);
      }
    }
  }

  // How the kept ops grow.

  /** What is kept stays, in its place. */
  lemma {:induction false} KeepsOn(pre: seq<Op>, more: seq<Op>)
    requires Dedup(pre + more).Some?
    ensures Dedup(pre).Some? && Dedup(pre).value <= Dedup(pre + more).value
  {
    if more == [] {
      assert pre + more == pre;
    } else {
      assert (pre + more)[..|pre + more| - 1] == pre + more[..|more| - 1];
      KeepsOn(pre, more[..|more| - 1]);
    }
  }

  ghost predicate Covers(pre: seq<Op>, o: Op) {
    exists p | p in pre :: Slot(p) == Slot(o)
  }

  /** Ops of slots already seen are not kept. */
  lemma {:induction false} CoveredAddsNone(pre: seq<Op>, more: seq<Op>)
    requires Dedup(pre + more).Some? && forall o | o in more :: Covers(pre, o)
    ensures Dedup(pre + more) == Dedup(pre)
  {
    hide Forks, Slot, Covers;
    if more == [] {
      assert pre + more == pre;
    } else {
      var init, op := more[..|more| - 1], more[|more| - 1];
      assert more == init + [op];
      assert (pre + more)[..|pre + more| - 1] == pre + init;
      CoveredAddsNone(pre, init);
      CoveredAt(pre, op);
    }
  }

  lemma CoveredAt(pre: seq<Op>, op: Op)
    requires Dedup(pre).Some? && Covers(pre, op)
    ensures AtSlot(Dedup(pre).value, op) < |Dedup(pre).value|
  {
    hide Dedup, Forks, Slot, SlotsDiffer, Kept;
    var p :| p in pre && Slot(p) == Slot(op);
    DedupIs(pre);
    var l := KeptCopy(Dedup(pre).value, p);
  }

  lemma KeptCopy(live: seq<Op>, o: Op) returns (l: Op)
    requires Kept(live, o)
    ensures l in live && Slot(l) == Slot(o)
  {
    hide Forks, Slot;
    l :| l in live && Slot(l) == Slot(o);
  }

  /** Which copy of a slot comes first changes nothing else that is kept. */
  lemma {:induction false} FirstCopyAlone(a: Op, b: Op, ops: seq<Op>)
    requires Slot(a) == Slot(b) && Dedup([a] + ops).Some? && Dedup([b] + ops).Some?
    ensures var la, lb := Dedup([a] + ops).value, Dedup([b] + ops).value;
      |la| == |lb| >= 1 && la[0] == a && lb[0] == b && la[1..] == lb[1..]
  {
    hide Forks, Slot, Dedup;
    if ops == [] {
      DedupSingle(a);
      DedupSingle(b);
      assert [a] + ops == [a] && [b] + ops == [b];
    } else {
      var init, op := ops[..|ops| - 1], ops[|ops| - 1];
      assert [a] + ops == [a] + init + [op] && [b] + ops == [b] + init + [op];
      DedupPush([a] + init, op);
      DedupPush([b] + init, op);
      FirstCopyAlone(a, b, init);
      var la, lb := Dedup([a] + init).value, Dedup([b] + init).value;
      SameSlotsAlike(la, lb, op);
      AllButFirst(la, op);
      AllButFirst(lb, op);
    }
  }

  lemma DedupPush(init: seq<Op>, op: Op)
    ensures Dedup(init).None? ==> Dedup(init + [op]).None?
    ensures Dedup(init).Some? && Dedup(init + [op]).Some? ==>
      var live := Dedup(init).value;
      Dedup(init + [op]).value == if AtSlot(live, op) == |live| then live + [op] else live
  {
    hide Forks;
    assert (init + [op])[..|init|] == init;
  }

  lemma DedupSingle(a: Op)
    ensures Dedup([a]) == Some([a])
  {
    assert [a][..0] == [] && [] + [a] == [a];
  }

  lemma SameSlotsAlike(la: seq<Op>, lb: seq<Op>, op: Op)
    requires |la| == |lb| >= 1 && Slot(la[0]) == Slot(lb[0]) && la[1..] == lb[1..]
    ensures AtSlot(la, op) == AtSlot(lb, op)
  {
    hide Slot;
  }

  lemma AllButFirst(live: seq<Op>, op: Op)
    requires live != []
    ensures (live + [op])[0] == live[0] && (live + [op])[1..] == live[1..] + [op]
  {
  }

  // When the value is the set's.

  ghost predicate SomeFork(ops: seq<Op>) {
    exists a, b | a in ops && b in ops :: Forks(a, b)
  }

  /** Some copy of `o`'s slot does not rank above `x`. */
  ghost predicate CopyBelow(ops: seq<Op>, x: Op, o: Op) {
    exists l | l in ops :: Slot(l) == Slot(o) && !Better(l, x)
  }

  /** An op that no slot must outrank: each has a copy that does not rank above it. */
  ghost predicate Contender(ops: seq<Op>, x: Op) {
    x in ops && forall o | o in ops :: CopyBelow(ops, x, o)
  }

  /** One copy for each slot of `some`, none of them above `x`. */
  lemma {:induction false} PickCopies(ops: seq<Op>, some: seq<Op>, x: Op) returns (picks: seq<Op>)
    requires forall o | o in some :: CopyBelow(ops, x, o)
    ensures (forall p | p in picks :: p in ops && !Better(p, x)) && forall o | o in some :: Covers(picks, o)
  {
    hide Better, Slot;
    if some == [] {
      picks := [];
    } else {
      var fewer := PickCopies(ops, some[1..], x);
      assert some[0] in some;
      var l :| l in ops && Slot(l) == Slot(some[0]) && !Better(l, x);
      picks := fewer + [l];
      assert l in picks;
      forall o | o in some ensures Covers(picks, o) {
        if o in some[1..] {
          var p :| p in fewer && Slot(p) == Slot(o);
          assert p in picks;
        } else {
          assert o == some[0];
        }
      }
    }
  }

  /** A contender wins in some order, with repeats. */
  lemma ContenderWins(ops: seq<Op>, x: Op) returns (other: seq<Op>)
    requires Contender(ops, x) && !SomeFork(ops)
    ensures SameOps(ops, other) && FoldValue(other) == Folded(Some(x.payload))
  {
    hide Better, Dedup, Forks, Slot, SomeFork, Covers, Kept, SlotsDiffer, CopyBelow;
    var picks := PickCopies(ops, ops, x);
    var pre := [x] + picks;
    other := pre + ops;
    NoForkKept(ops, other);
    forall o | o in ops ensures Covers(pre, o) {
      CoversMore([x], picks, o);
    }
    CoveredAddsNone(pre, ops);
    KeepsOn([x], picks);
    DedupSingle(x);
    var live := Dedup(pre).value;
    assert live[0] == x;
    DedupIs(pre);
    BetterOrder(x, x, x);
    WinnerIsTop(live);
  }

  lemma CoversMore(some: seq<Op>, pre: seq<Op>, o: Op)
    requires Covers(pre, o)
    ensures Covers(some + pre, o)
  {
    hide Slot;
    var p :| p in pre && Slot(p) == Slot(o);
    assert p in some + pre;
  }

  /** And whatever the order, a contender's payload is the value. */
  lemma FoldsToContender(ops: seq<Op>, other: seq<Op>)
    requires SameOps(ops, other) && !SomeFork(ops)
    ensures match FoldValue(other)
      case Equivocation => false
      case Folded(None) => forall o :: o !in ops
      case Folded(Some(p)) => exists x | Contender(ops, x) :: p == x.payload
  {
    hide Better, Dedup, Forks, Slot, SomeFork, Kept, SlotsDiffer;
    NoForkKept(ops, other);
    DedupIs(other);
    var live := Dedup(other).value;
    if live == [] {
      if o :| o in ops {
        var l := KeptCopy(live, o);
      }
    } else {
      var w := Winner(live);
      WinnerIsTop(live);
      forall o | o in ops ensures CopyBelow(ops, w, o) {
        var l := KeptCopy(live, o);
        assert l in ops;
      }
      assert Contender(ops, w);
    }
  }

  /** The value fold is a function of the op-set, whatever the order and the repeats, exactly when
      two ops fork or all the contenders carry one payload. */
  lemma ValueIsOfTheSet(ops: seq<Op>)
    ensures (forall other: seq<Op> | SameOps(ops, other) :: FoldValue(other) == FoldValue(ops))
       <==> SomeFork(ops) || forall a, b | Contender(ops, a) && Contender(ops, b) :: a.payload == b.payload
  {
    hide Better, Dedup, Forks, Contender;
    if SomeFork(ops) {
      forall other: seq<Op> | SameOps(ops, other) ensures FoldValue(other) == FoldValue(ops) {
        EquivocationIsAFork(ops);
        EquivocationIsAFork(other);
      }
    } else if forall a, b | Contender(ops, a) && Contender(ops, b) :: a.payload == b.payload {
      forall other: seq<Op> | SameOps(ops, other) ensures FoldValue(other) == FoldValue(ops) {
        ContendersAreOps(ops);
        FoldsToContender(ops, ops);
        FoldsToContender(ops, other);
      }
    } else {
      var a, b :| Contender(ops, a) && Contender(ops, b) && a.payload != b.payload;
      var first := ContenderWins(ops, a);
      var second := ContenderWins(ops, b);
      assert FoldValue(first) != FoldValue(second);
    }
  }

  lemma ContendersAreOps(ops: seq<Op>)
    ensures forall x | Contender(ops, x) :: x in ops
  {
  }

  // When the log is.

  /** `c` sorts between two copies of another slot, and carries another payload. */
  ghost predicate Straddles(a: Op, b: Op, c: Op) {
    Slot(a) == Slot(b) && Slot(c) != Slot(a) && c.payload != a.payload && LogBefore(a, c) && LogBefore(c, b)
  }

  ghost predicate SomeStraddled(ops: seq<Op>) {
    exists a, b, c | a in ops && b in ops && c in ops :: Straddles(a, b, c)
  }

  ghost predicate SameSlots(a: seq<Op>, b: seq<Op>) {
    (forall o | o in a :: Covers(b, o)) && forall o | o in b :: Covers(a, o)
  }

  /** One copy a slot, sorted: which copies they are does not show where none is straddled. */
  lemma {:induction false} CopiesAlike(ops: seq<Op>, sa: seq<Op>, sb: seq<Op>)
    requires !SomeFork(ops) && !SomeStraddled(ops) && (forall o | o in sa + sb :: o in ops)
    requires Ordered(sa) && Ordered(sb) && SlotsDiffer(sa) && SlotsDiffer(sb) && SameSlots(sa, sb)
    ensures Payloads(sa) == Payloads(sb)
  {
    hide LogBefore, Slot, Straddles, Forks, SomeFork, SomeStraddled;
    if sb != [] { SlotsNeedOps(sa, sb); }
    if sa != [] {
      var j := CopyAt(sa, sb);
      forall i | 0 <= i <= j ensures sb[i].payload == sa[0].payload {
        BeforeTheCopy(ops, sa, sb, j, i);
      }
      var sa', sb' := sa[1..], sb[..j] + sb[j + 1..];
      WithoutTheCopy(sa, sb, j);
      CopiesAlike(ops, sa', sb');
      assert Payloads(sb) == [sa[0].payload] + Payloads(sb');
      assert Payloads(sa) == [sa[0].payload] + Payloads(sa');
    }
  }

  lemma SlotsNeedOps(sa: seq<Op>, sb: seq<Op>)
    requires sb != [] && SameSlots(sa, sb)
    ensures sa != []
  {
    assert Covers(sa, sb[0]);
  }

  lemma CopyAt(sa: seq<Op>, sb: seq<Op>) returns (j: nat)
    requires sa != [] && SameSlots(sa, sb)
    ensures j < |sb| && Slot(sb[j]) == Slot(sa[0])
  {
    assert Covers(sb, sa[0]);
    var g :| g in sb && Slot(g) == Slot(sa[0]);
    j :| 0 <= j < |sb| && sb[j] == g;
  }

  /** The slots but the first's, in both. */
  lemma WithoutTheCopy(sa: seq<Op>, sb: seq<Op>, j: nat)
    requires sa != [] && j < |sb| && Slot(sb[j]) == Slot(sa[0])
    requires Ordered(sa) && Ordered(sb) && SlotsDiffer(sa) && SlotsDiffer(sb) && SameSlots(sa, sb)
    ensures var sa', sb' := sa[1..], sb[..j] + sb[j + 1..];
      && Ordered(sa') && Ordered(sb') && SlotsDiffer(sa') && SlotsDiffer(sb') && SameSlots(sa', sb')
      && (forall o | o in sa' :: o in sa) && forall o | o in sb' :: o in sb
  {
    hide LogBefore, Slot;
    var sa', sb' := sa[1..], sb[..j] + sb[j + 1..];
    forall o | o in sa' ensures Covers(sb', o) {
      var k :| 0 <= k < |sa'| && sa'[k] == o;
      assert sa[k + 1] == o && o in sa && Covers(sb, o);
      var g :| g in sb && Slot(g) == Slot(o);
      var i :| 0 <= i < |sb| && sb[i] == g;
      assert i != j && g in sb';
    }
    forall o | o in sb' ensures Covers(sa', o) {
      var i: nat :| i < |sb| && i != j && sb[i] == o;
      assert o in sb && Covers(sa, o);
      var g :| g in sa && Slot(g) == Slot(o);
      assert g in sa';
    }
  }

  /** What sorts before the other copy of the first op's slot carries its payload. */
  lemma BeforeTheCopy(ops: seq<Op>, sa: seq<Op>, sb: seq<Op>, j: nat, i: nat)
    requires !SomeFork(ops) && !SomeStraddled(ops) && (forall o | o in sa + sb :: o in ops)
    requires Ordered(sa) && Ordered(sb) && SlotsDiffer(sb) && SameSlots(sa, sb)
    requires sa != [] && i <= j < |sb| && Slot(sb[j]) == Slot(sa[0])
    ensures sb[i].payload == sa[0].payload
  {
    hide LogBefore, Slot;
    var h, g, e := sa[0], sb[j], sb[i];
    assert h in sa + sb && g in sa + sb && e in sa + sb;
    assert !Forks(h, g);
    if i < j {
      assert e in sb && Covers(sa, e);
      var e' :| e' in sa && Slot(e') == Slot(e);
      assert e' in sa + sb && !Forks(e, e');
      var k :| 0 <= k < |sa| && sa[k] == e';
      assert LogBefore(h, e') && LogBefore(e, g);
      SessionLog.LogBeforeTotal(h, e);
      assert !Straddles(h, g, e) && !Straddles(e, e', h);
    }
  }

  /** Where `op` goes among sorted ops of other slots. */
  lemma {:induction false} Place(sorted: seq<Op>, op: Op) returns (at: nat)
    requires Ordered(sorted) && forall o | o in sorted :: Slot(o) != Slot(op)
    ensures at <= |sorted| && Ordered(sorted[..at] + [op] + sorted[at..])
    ensures (forall i | 0 <= i < at :: LogBefore(sorted[i], op)) && forall i | at <= i < |sorted| :: LogBefore(op, sorted[i])
  {
    hide LogBefore, Slot;
    at := |sorted|;
    while at > 0 && LogBefore(op, sorted[at - 1])
      invariant 0 <= at <= |sorted| && forall i | at <= i < |sorted| :: LogBefore(op, sorted[i])
    {
      at := at - 1;
    }
    forall i | 0 <= i < at ensures LogBefore(sorted[i], op) {
      SessionLog.LogBeforeTotal(sorted[at - 1], op);
      if i < at - 1 {
        SessionLog.LogBeforeTransitive(sorted[i], sorted[at - 1], op);
      }
    }
  }

  lemma {:induction false} Arrange(live: seq<Op>) returns (sorted: seq<Op>)
    requires SlotsDiffer(live)
    ensures Arranges(sorted, live)
  {
    hide LogBefore, Slot;
    if live == [] {
      sorted := [];
    } else {
      var fewer := Arrange(live[1..]);
      var at := Place(fewer, live[0]);
      sorted := fewer[..at] + [live[0]] + fewer[at..];
      assert live == [live[0]] + live[1..];
      assert fewer == fewer[..at] + fewer[at..];
    }
  }

  /** A payload at either end of others of which one differs is not the same log. */
  lemma {:induction false} PlacedApart<T>(ps: seq<T>, v: T, p: nat, m: nat, q: nat)
    requires p <= m < q <= |ps| && ps[m] != v
    ensures ps[..p] + [v] + ps[p..] != ps[..q] + [v] + ps[q..]
    decreases m - p
  {
    var x, y := ps[..p] + [v] + ps[p..], ps[..q] + [v] + ps[q..];
    assert x[p] == v && y[p] == ps[p];
    if p < m && ps[p] == v {
      PlacedApart(ps, v, p + 1, m, q);
      assert x == ps[..p + 1] + [v] + ps[p + 1..];
    }
  }

  /** Straddled, an op of another payload shows which copy was seen first. */
  lemma StraddledFoldsTwoWays(ops: seq<Op>, a: Op, b: Op, c: Op)
    requires !SomeFork(ops) && a in ops && b in ops && c in ops && Straddles(a, b, c)
    ensures !LogIsOne(ops)
  {
    hide Dedup, Forks, SomeFork, LogBefore, Slot, FoldsLog;
    var x, y := [a] + ([c] + ops), [b] + ([c] + ops);
    NoForkKept(ops, x);
    NoForkKept(ops, y);
    FirstCopyAlone(a, b, [c] + ops);
    var la, lb := Dedup(x).value, Dedup(y).value;
    var others := la[1..];
    SecondKept(a, c, ops);
    var m, u := ArrangeAround(others, c);
    assert la == [a] + others && lb == [b] + others;
    var p := PlaceFirst(u, others, a, la);
    var q := PlaceFirst(u, others, b, lb);
    SessionLog.LogBeforeTotal(a, c);
    SessionLog.LogBeforeTotal(c, b);
    assert p <= m < q;
    var sa, sb := u[..p] + [a] + u[p..], u[..q] + [b] + u[q..];
    LogBy(x, sa);
    LogBy(y, sb);
    CopiesShare(ops, a, b);
    assert Payloads(u)[m] == c.payload;
    PlacedApart(Payloads(u), a.payload, p, m, q);
    assert Payloads(sa) == Payloads(u)[..p] + [a.payload] + Payloads(u)[p..];
    assert Payloads(sb) == Payloads(u)[..q] + [b.payload] + Payloads(u)[q..];
  }

  lemma NoForkKept(ops: seq<Op>, other: seq<Op>)
    requires !SomeFork(ops) && forall o | o in other :: o in ops
    ensures Dedup(other).Some? && SlotsDiffer(Dedup(other).value)
  {
    hide Dedup, Forks, Kept, SlotsDiffer;
    DedupIs(other);
    EquivocationIsAFork(other);
  }

  lemma SecondKept(a: Op, c: Op, ops: seq<Op>)
    requires Slot(a) != Slot(c) && Dedup([a] + ([c] + ops)).Some?
    ensures var live := Dedup([a] + ([c] + ops)).value; |live| >= 2 && live[1] == c
  {
    hide Forks, Slot;
    assert [a] + ([c] + ops) == [a, c] + ops;
    KeepsOn([a, c], ops);
    DedupSingle(a);
    assert [a, c][..1] == [a] && [a] + [c] == [a, c];
    assert AtSlot([a], c) == 1;
  }

  lemma ArrangeAround(others: seq<Op>, c: Op) returns (m: nat, u: seq<Op>)
    requires others != [] && others[0] == c && SlotsDiffer(others)
    ensures Arranges(u, others) && m < |u| && u[m] == c
  {
    hide Ordered, SlotsDiffer;
    u := Arrange(others);
    assert c in others;
    m :| 0 <= m < |u| && u[m] == c;
  }

  lemma PlaceFirst(u: seq<Op>, others: seq<Op>, a: Op, live: seq<Op>) returns (at: nat)
    requires Arranges(u, others) && live == [a] + others && SlotsDiffer(live)
    ensures at <= |u| && Arranges(u[..at] + [a] + u[at..], live)
    ensures (forall i | 0 <= i < at :: LogBefore(u[i], a)) && forall i | at <= i < |u| :: LogBefore(a, u[i])
  {
    hide LogBefore, Slot;
    forall o | o in u ensures Slot(o) != Slot(a) {
      assert o in others;
      var i :| 0 <= i < |others| && others[i] == o;
      assert live[i + 1] == o && live[0] == a;
    }
    at := Place(u, a);
    assert u == u[..at] + u[at..];
  }

  lemma LogBy(ops: seq<Op>, sorted: seq<Op>)
    requires Dedup(ops).Some? && Arranges(sorted, Dedup(ops).value)
    ensures FoldsLog(ops, Folded(Payloads(sorted)))
  {
    hide Dedup, Payloads;
  }

  lemma CopiesShare(ops: seq<Op>, a: Op, b: Op)
    requires !SomeFork(ops) && a in ops && b in ops && Slot(a) == Slot(b)
    ensures a.payload == b.payload
  {
    assert !Forks(a, b);
  }

  /** Whatever the order and the repeats, the ops fold to one log. */
  ghost predicate LogIsOne(ops: seq<Op>) {
    forall x, y, rx, ry | SameOps(ops, x) && SameOps(ops, y) && FoldsLog(x, rx) && FoldsLog(y, ry) :: rx == ry
  }

  /** The log fold is a function of the op-set exactly when two ops fork, or none of another slot and
      payload sorts between two copies of one slot. */
  lemma LogIsOfTheSet(ops: seq<Op>)
    ensures LogIsOne(ops) <==> SomeFork(ops) || !SomeStraddled(ops)
  {
    hide Straddles, LogIsOne, SomeFork, Dedup;
    if SomeFork(ops) || !SomeStraddled(ops) {
      LogsAreOne(ops);
    } else {
      var a, b, c :| a in ops && b in ops && c in ops && Straddles(a, b, c);
      StraddledFoldsTwoWays(ops, a, b, c);
    }
  }

  lemma LogsAreOne(ops: seq<Op>)
    requires SomeFork(ops) || !SomeStraddled(ops)
    ensures LogIsOne(ops)
  {
    hide SomeFork, SomeStraddled, Dedup, SameOps, FoldsLog;
    forall x, y, rx, ry | SameOps(ops, x) && SameOps(ops, y) && FoldsLog(x, rx) && FoldsLog(y, ry) ensures rx == ry {
      LogsAgree(ops, x, y, rx, ry);
    }
  }

  lemma LogsAgree(ops: seq<Op>, x: seq<Op>, y: seq<Op>, rx: Folded<seq<seq<byte>>>, ry: Folded<seq<seq<byte>>>)
    requires SameOps(ops, x) && SameOps(ops, y) && FoldsLog(x, rx) && FoldsLog(y, ry)
    requires SomeFork(ops) || !SomeStraddled(ops)
    ensures rx == ry
  {
    hide Dedup, Forks, SomeStraddled, Ordered, Payloads;
    EquivocationIsAFork(x);
    EquivocationIsAFork(y);
    if !SomeFork(ops) {
      var sx: seq<Op> :| Arranges(sx, Dedup(x).value) && rx == Folded(Payloads(sx));
      var sy: seq<Op> :| Arranges(sy, Dedup(y).value) && ry == Folded(Payloads(sy));
      ArrangedSlots(ops, x, sx);
      ArrangedSlots(ops, y, sy);
      SlotsAlike(ops, sx, sy);
      CopiesAlike(ops, sx, sy);
    }
  }

  /** A sort of what is kept holds one op of each slot of the set. */
  ghost predicate Picked(ops: seq<Op>, sorted: seq<Op>) {
    SlotsDiffer(sorted) && (forall o | o in sorted :: o in ops) && forall o | o in ops :: Covers(sorted, o)
  }

  lemma ArrangedSlots(ops: seq<Op>, x: seq<Op>, sorted: seq<Op>)
    requires SameOps(ops, x) && Dedup(x).Some? && Arranges(sorted, Dedup(x).value)
    ensures Picked(ops, sorted)
  {
    hide Dedup, Forks, Slot, LogBefore, Kept, SlotsDiffer;
    DedupIs(x);
    var live := Dedup(x).value;
    forall o | o in ops ensures Covers(sorted, o) {
      var l := KeptCopy(live, o);
      assert l in sorted;
    }
    forall a, b | a in sorted && b in sorted && a != b ensures Slot(a) != Slot(b) {
      if Slot(a) == Slot(b) { OnePerSlot(live, a, b); }
    }
    SessionLog.OrderedSlots(sorted);
  }

  lemma SlotsAlike(ops: seq<Op>, sx: seq<Op>, sy: seq<Op>)
    requires Picked(ops, sx) && Picked(ops, sy)
    ensures SlotsDiffer(sx) && SlotsDiffer(sy) && SameSlots(sx, sy) && forall o | o in sx + sy :: o in ops
  {
    hide SlotsDiffer, Covers;
  }

  /** Where repeats are of one op there is no fork, none is straddled, and the contenders are the
      ops that rank highest. */
  lemma AgreeingIsSimple(ops: seq<Op>)
    requires Agrees(ops)
    ensures !SomeFork(ops) && !SomeStraddled(ops) && forall x :: Contender(ops, x) <==> Top(ops, x)
  {
    hide Better, Slot, LogBefore;
    forall a, b, c | a in ops && b in ops && c in ops ensures !Straddles(a, b, c) {
      SessionLog.LogBeforeTotal(a, c);
    }
    forall x | x in ops ensures Contender(ops, x) <==> Top(ops, x) {
      if Contender(ops, x) {
        forall o | o in ops ensures !Better(o, x) {
          assert CopyBelow(ops, x, o);
          var l :| l in ops && Slot(l) == Slot(o) && !Better(l, x);
        }
      }
    }
  }

  /** Out of that, a slot seen again under another lamport is no fork, and which copy comes first
      decides the value and the log. */
  lemma RepeatsUnderAnotherLamport()
    ensures var a0, a5, b3 := SampleOp("a", 0, [1]), SampleOp("a", 5, [1]), SampleOp("b", 3, [2]);
      && SameOps([a0, b3, a5], [a5, b3, a0])
      && FoldValue([a0, b3, a5]) == Folded(Some([2])) && FoldValue([a5, b3, a0]) == Folded(Some([1]))
      && !SomeFork([a0, b3, a5]) && SomeStraddled([a0, b3, a5])
  {
    var a0, a5, b3 := SampleOp("a", 0, [1]), SampleOp("a", 5, [1]), SampleOp("b", 3, [2]);
    KeepsFirst(a0, b3, a5);
    KeepsFirst(a5, b3, a0);
    assert Straddles(a0, a5, b3);
  }

  lemma KeepsFirst(x: Op, y: Op, z: Op)
    requires Slot(x) == Slot(z) && Slot(x) != Slot(y) && !Forks(x, z)
    ensures Dedup([x, y, z]) == Some([x, y]) && Winner([x, y]) == if Better(y, x) then y else x
  {
    assert [x, y, z][..2] == [x, y] && [x, y][..1] == [x];
    DedupSingle(x);
    assert [x] + [y] == [x, y] && AtSlot([x], y) == 1;
    assert Dedup([x, y]) == Some([x, y]);
    assert AtSlot([x, y], z) == 0;
  }

  function SampleOp(origin: string, lamport: int, payload: seq<byte>): Op {
    Op("s", "g", [], origin, 0, None, lamport, [], Shape.Value, payload)
  }
}
