/** What the table of sent ops is promised: no op overtakes one of its chain not placed, a
    zone's resend goes whole and in order, and every waiter is told once or held. */
module AnswerLaws {
  import opened Wrappers
  import opened Bytes
  import opened Text
  import opened Ops
  import opened Answers
  import S = Sessions

  // No overtaking.

  lemma {:induction false} HoldingIsFirst<W>(t: Table<W>, kept: seq<Op>, op: Op)
    ensures match Holding(t, kept, op)
      case Some(k) => k in kept && Earlier(k, op) && !InFlight(t, k)
      case None => forall k | k in kept && Earlier(k, op) :: InFlight(t, k)
  {
    if kept != [] {
      HoldingIsFirst(t, kept[1..], op);
      assert kept == [kept[0]] + kept[1..];
    }
  }

  /** An op goes exactly when every op of its chain before it, not placed, is in flight at that
      moment; held, it joins the ops not placed. */
  lemma NoOvertaking<W>(t: Table<W>, hash: Op -> string, op: Op, waiter: Option<W>)
    ensures var (t', goes, due) := Offer(t, hash, op, waiter);
      && (goes <==> forall kept | kept in t.unplaced && Earlier(kept, op) :: InFlight(t, kept))
      && (goes ==> t'.unplaced == t.unplaced && (t.bound > 0 ==> InFlight(t', op)))
      && (!goes ==> op in t'.unplaced && t'.waiting == t.waiting && due.Some? && due.value.outcome.NotPlaced?)
  {
    HoldingIsFirst(t, t.unplaced, op);
    var (t', goes, due) := Offer(t, hash, op, waiter);
    if goes && t.bound > 0 {
      assert t'.waiting[|t'.waiting| - 1].op == op;
    }
  }

  // A resend.

  lemma {:induction false} PlacedSplits(sorted: seq<Op>, op: Op)
    requires InOrder(sorted)
    ensures var at := Placed(sorted, op);
      && (forall i | 0 <= i < at :: !ChainBefore(op, sorted[i]))
      && (forall i | at <= i < |sorted| :: ChainBefore(op, sorted[i]))
  {
    if sorted != [] {
      var last := sorted[|sorted| - 1];
      if ChainBefore(op, last) {
        PlacedSplits(sorted[..|sorted| - 1], op);
      } else {
        forall i | 0 <= i < |sorted| ensures !ChainBefore(op, sorted[i]) {
          if ChainBefore(op, sorted[i]) && i < |sorted| - 1 {
            ChainOrder(op, sorted[i], last);
          }
        }
      }
    }
  }

  ghost predicate InOrder(ops: seq<Op>) {
    forall i, j | 0 <= i < j < |ops| :: !ChainBefore(ops[j], ops[i])
  }

  /** A strict order whose negation is transitive: (origin, seq). */
  lemma ChainOrder(a: Op, b: Op, c: Op)
    ensures ChainBefore(a, b) ==> !ChainBefore(b, a)
    ensures ChainBefore(a, b) && !ChainBefore(c, b) ==> ChainBefore(a, c)
    ensures ChainBefore(a, b) && !ChainBefore(a, c) ==> ChainBefore(c, b)
  {
    BeforeTotal(a.origin, b.origin);
    BeforeTotal(a.origin, c.origin);
    BeforeTotal(b.origin, c.origin);
    if Before(a.origin, b.origin) && Before(b.origin, c.origin) {
      BeforeTransitive(a.origin, b.origin, c.origin);
    }
    if Before(c.origin, a.origin) && Before(a.origin, b.origin) {
      BeforeTransitive(c.origin, a.origin, b.origin);
    }
  }

  lemma {:induction false} ArrangeSorts(ops: seq<Op>)
    ensures InOrder(Arrange(ops)) && multiset(Arrange(ops)) == multiset(ops) && |Arrange(ops)| == |ops|
    ensures forall o :: o in Arrange(ops) <==> o in ops
  {
    if ops != [] {
      var init, op := ops[..|ops| - 1], ops[|ops| - 1];
      assert ops == init + [op];
      ArrangeSorts(init);
      var sorted := Arrange(init);
      var at := Placed(sorted, op);
      PlacedSplits(sorted, op);
      assert sorted == sorted[..at] + sorted[at..];
      InsertKeepsOrder(sorted, op, at);
    }
    forall o ensures o in Arrange(ops) <==> o in ops {
      assert o in Arrange(ops) <==> o in multiset(Arrange(ops));
    }
  }

  lemma InsertKeepsOrder(sorted: seq<Op>, op: Op, at: nat)
    requires InOrder(sorted) && at <= |sorted|
    requires forall i | 0 <= i < at :: !ChainBefore(op, sorted[i])
    requires forall i | at <= i < |sorted| :: ChainBefore(op, sorted[i])
    ensures InOrder(sorted[..at] + [op] + sorted[at..])
  {
    hide ChainBefore;
    var more := sorted[..at] + [op] + sorted[at..];
    forall i, j | 0 <= i < j < |more| ensures !ChainBefore(more[j], more[i]) {
      if j == at {
        assert more[i] == sorted[i];
      } else if i == at {
        assert more[j] == sorted[j - 1];
        ChainOrder(op, sorted[j - 1], op);
      } else {
        assert more[i] == sorted[if i < at then i else i - 1] && more[j] == sorted[if j < at then j else j - 1];
      }
    }
  }

  lemma {:induction false} GroundedAre<W>(t: Table<W>, kept: seq<Op>, z: Zone)
    ensures forall o :: o in Grounded(t, kept, z) <==> o in kept && ZoneOf(o) == z && !InFlight(t, o)
    ensures |Grounded(t, kept, z)| <= |kept|
  {
    if kept != [] {
      GroundedAre(t, kept[..|kept| - 1], z);
      assert kept == kept[..|kept| - 1] + [kept[|kept| - 1]];
    }
  }

  /** `ops` are a zone's ops not placed and not in flight, in their chains' order. */
  ghost predicate Resends<W>(t: Table<W>, z: Zone, ops: seq<Op>) {
    InOrder(ops) && forall o :: o in ops <==> o in t.unplaced && ZoneOf(o) == z && !InFlight(t, o)
  }

  lemma UnplacedInResends<W>(t: Table<W>, z: Zone)
    ensures Resends(t, z, UnplacedIn(t, z))
  {
    hide InFlight;
    ArrangeSorts(Grounded(t, t.unplaced, z));
    GroundedAre(t, t.unplaced, z);
  }

  /** The table once the first `n` of `ops` have gone. */
  ghost predicate Gone<W>(t: Table<W>, t1: Table<W>, ops: seq<Op>, n: nat)
    requires n <= |ops|
  {
    && t1 == t.(waiting := t1.waiting) && |t1.waiting| == |t.waiting| + n
    && (forall i | 0 <= i < |t.waiting| :: t1.waiting[i] == t.waiting[i])
    && (forall i | 0 <= i < n :: t1.waiting[|t.waiting| + i].op == ops[i])
  }

  lemma GoneFly<W>(t: Table<W>, t1: Table<W>, ops: seq<Op>, n: nat, op: Op)
    requires n <= |ops| && Gone(t, t1, ops, n)
    ensures InFlight(t1, op) <==> InFlight(t, op) || op in ops[..n]
  {
    if i :| 0 <= i < |t.waiting| && t.waiting[i].op == op {
      assert t1.waiting[i].op == op;
    }
    if i :| 0 <= i < n && ops[i] == op {
      assert t1.waiting[|t.waiting| + i].op == op;
    }
    if i :| 0 <= i < |t1.waiting| && t1.waiting[i].op == op {
      assert i < |t.waiting| || ops[..n][i - |t.waiting|] == op;
    }
  }

  /** The next op of a resend: every one of its chain not placed before it is in flight. */
  lemma ResendNext<W>(t: Table<W>, t1: Table<W>, z: Zone, ops: seq<Op>, n: nat)
    requires Resends(t, z, ops) && n < |ops| && Gone(t, t1, ops, n)
    ensures forall kept | kept in t.unplaced && Earlier(kept, ops[n]) :: InFlight(t1, kept)
  {
    hide InFlight;
    var op := ops[n];
    assert op in ops;
    forall kept | kept in t.unplaced && Earlier(kept, op) ensures InFlight(t1, kept) {
      GoneFly(t, t1, ops, n, kept);
      if !InFlight(t, kept) {
        assert kept in ops;
        var i :| 0 <= i < |ops| && ops[i] == kept;
        ChainOrder(kept, op, kept);
        assert ops[..n][i] == kept;
      }
    }
  }

  lemma {:induction false} ResendUpTo<W>(t: Table<W>, hash: Op -> string, z: Zone, ops: seq<Op>, n: nat)
    requires Resends(t, z, ops) && n <= |ops| && |t.waiting| + |ops| <= t.bound
    ensures var (t', now, due) := OfferAll(t, hash, Unwaited(ops)[..n]);
      now == ops[..n] && due == [] && Gone(t, t', ops, n)
  {
    hide InFlight, Resends, Earlier, Gone, Offer;
    if n == 0 {
      assert Unwaited<W>(ops)[..0] == [];
      GoneNone(t, ops);
    } else {
      ResendUpTo(t, hash, z, ops, n - 1);
      var all: seq<Sending<W>> := Unwaited(ops);
      assert all[..n][..n - 1] == all[..n - 1] && all[..n][n - 1] == Sending(ops[n - 1], None);
      var (t1, now, due) := OfferAll(t, hash, all[..n - 1]);
      ResendOne(t, hash, t1, z, ops, n - 1);
      assert ops[..n] == ops[..n - 1] + [ops[n - 1]];
    }
  }

  lemma GoneNone<W>(t: Table<W>, ops: seq<Op>)
    ensures Gone(t, t, ops, 0)
  {
  }

  lemma ResendOne<W>(t: Table<W>, hash: Op -> string, t1: Table<W>, z: Zone, ops: seq<Op>, n: nat)
    requires Resends(t, z, ops) && n < |ops| && |t.waiting| + |ops| <= t.bound && Gone(t, t1, ops, n)
    ensures var (t2, goes, due) := Offer(t1, hash, ops[n], None); goes && due == None && Gone(t, t2, ops, n + 1)
  {
    hide InFlight, Resends, Earlier, Holding;
    ResendNext(t, t1, z, ops, n);
    HoldingIsFirst(t1, t1.unplaced, ops[n]);
  }

  /** While the table has room, a zone's ops not placed are all sent again, none held back, in
      their chains' order; and then none of the zone's is left on the ground. */
  lemma ResendGoesWhole<W>(t: Table<W>, hash: Op -> string, z: Zone)
    requires |t.waiting| + |UnplacedIn(t, z)| <= t.bound
    ensures var ops := UnplacedIn(t, z);
      var (t', now, due) := OfferAll(t, hash, Unwaited(ops));
      && now == ops && due == [] && InOrder(ops)
      && t'.unplaced == t.unplaced && UnplacedIn(t', z) == []
  {
    hide InFlight, UnplacedIn, OfferAll, InOrder;
    var ops := UnplacedIn(t, z);
    UnplacedInResends(t, z);
    ResendUpTo(t, hash, z, ops, |ops|);
    var all: seq<Sending<W>> := Unwaited(ops);
    assert all[..|ops|] == all && ops[..|ops|] == ops;
    var (t', now, due) := OfferAll(t, hash, all);
    UnplacedInResends(t', z);
    var left := UnplacedIn(t', z);
    if left != [] {
      var o := left[0];
      assert o in left && o in t.unplaced;
      GoneFly(t, t', ops, |ops|, o);
      assert false;
    }
  }

  // Waiters.

  function One<W>(waiter: Option<W>): multiset<W> {
    match waiter case None => multiset{} case Some(w) => multiset{w}
  }

  function Held<W>(waiting: seq<Sent<W>>): multiset<W> {
    if waiting == [] then multiset{} else Held(waiting[..|waiting| - 1]) + One(waiting[|waiting| - 1].waiter)
  }

  function Told<W>(answered: seq<Answered<W>>): multiset<W> {
    if answered == [] then multiset{} else Told(answered[..|answered| - 1]) + One(answered[|answered| - 1].waiter)
  }

  function Given<W>(sends: seq<Sending<W>>): multiset<W> {
    if sends == [] then multiset{} else Given(sends[..|sends| - 1]) + One(sends[|sends| - 1].waiter)
  }

  lemma {:induction false} HeldConcat<W>(a: seq<Sent<W>>, b: seq<Sent<W>>)
    ensures Held(a + b) == Held(a) + Held(b)
  {
    if b == [] {
      assert a + b == a;
    } else {
      assert (a + b)[..|a + b| - 1] == a + b[..|b| - 1];
      HeldConcat(a, b[..|b| - 1]);
    }
  }

  lemma {:induction false} ToldConcat<W>(a: seq<Answered<W>>, b: seq<Answered<W>>)
    ensures Told(a + b) == Told(a) + Told(b)
  {
    if b == [] {
      assert a + b == a;
    } else {
      assert (a + b)[..|a + b| - 1] == a + b[..|b| - 1];
      ToldConcat(a, b[..|b| - 1]);
    }
  }

  lemma ToldOne<W>(due: Option<Answered<W>>)
    ensures Told(AsSeq(due)) == match due case None => multiset{} case Some(a) => One(a.waiter)
  {
  }

  lemma HeldOne<W>(sent: Sent<W>)
    ensures Held([sent]) == One(sent.waiter)
  {
  }

  lemma OfferTells<W>(t: Table<W>, hash: Op -> string, op: Op, waiter: Option<W>)
    ensures var (t', _, due) := Offer(t, hash, op, waiter);
      Held(t'.waiting) + Told(AsSeq(due)) == Held(t.waiting) + One(waiter)
  {
    hide Held, Told, Holding;
    var (t', goes, due) := Offer(t, hash, op, waiter);
    ToldOne(due);
    if goes {
      var sent := Sent(hash(op), op, waiter);
      var waiting := t.waiting + [sent];
      HeldConcat(t.waiting, [sent]);
      HeldOne(sent);
      assert waiting == [waiting[0]] + waiting[1..];
      HeldConcat([waiting[0]], waiting[1..]);
      HeldOne(waiting[0]);
    }
  }

  /** Of the waiters a send is given, each is held with its op, or told at once. */
  lemma {:induction false} SendsTellOrHold<W>(t: Table<W>, hash: Op -> string, sends: seq<Sending<W>>)
    ensures var (t', _, due) := OfferAll(t, hash, sends);
      Held(t'.waiting) + Told(due) == Held(t.waiting) + Given(sends)
  {
    hide Held, Offer;
    if sends != [] {
      var init, last := sends[..|sends| - 1], sends[|sends| - 1];
      SendsTellOrHold(t, hash, init);
      var (t1, _, due) := OfferAll(t, hash, init);
      OfferTells(t1, hash, last.op, last.waiter);
      var (t2, _, answer) := Offer(t1, hash, last.op, last.waiter);
      ToldConcat(due, AsSeq(answer));
      assert Held(t2.waiting) + Told(due + AsSeq(answer)) == Held(t2.waiting) + Told(AsSeq(answer)) + Told(due);
      assert Held(t1.waiting) + One(last.waiter) + Told(due) == Held(t1.waiting) + Told(due) + One(last.waiter);
    }
  }

  lemma StatusTells<W>(t: Table<W>, session: S.State, status: Status)
    ensures var (t', _, answered) := TakeStatus(t, session, status);
      Held(t'.waiting) + Told(AsSeq(answered)) == Held(t.waiting)
  {
    hide Held, Told;
    var (t', _, answered) := TakeStatus(t, session, status);
    ToldOne(answered);
    if answered.Some? {
      var at := Position(t.waiting, status.corr.value);
      var before, rest := t.waiting[..at], t.waiting[at + 1..];
      assert t.waiting == before + [t.waiting[at]] + rest;
      HeldConcat(before + [t.waiting[at]], rest);
      HeldConcat(before, [t.waiting[at]]);
      HeldConcat(before, rest);
      HeldOne(t.waiting[at]);
    }
  }

  lemma {:induction false} UnknownTells<W>(waiting: seq<Sent<W>>)
    ensures Told(AllUnknown(waiting)) == Held(waiting)
  {
    if waiting != [] {
      UnknownTells(waiting[..|waiting| - 1]);
      assert AllUnknown(waiting)[..|waiting| - 1] == AllUnknown(waiting[..|waiting| - 1]);
    }
  }

  /** The send a status settles is the first in the table whose hash it carries; no other moves. */
  lemma StatusAnswersTheOldest<W>(t: Table<W>, session: S.State, status: Status)
    ensures var (t', _, answered) := TakeStatus(t, session, status);
      match answered
      case None =>
        && t' == t
        && (status.corr.None? || forall i | 0 <= i < |t.waiting| :: t.waiting[i].hash != status.corr.value)
      case Some(a) =>
        exists at | 0 <= at < |t.waiting| ::
          && status.corr == Some(t.waiting[at].hash)
          && (forall i | 0 <= i < at :: t.waiting[i].hash != status.corr.value)
          && a.op == t.waiting[at].op && a.waiter == t.waiting[at].waiter
          && t'.waiting == t.waiting[..at] + t.waiting[at + 1..]
  {
    if status.corr.Some? {
      var at := Position(t.waiting, status.corr.value);
      if at < |t.waiting| {
        assert status.corr == Some(t.waiting[at].hash);
      }
    }
  }

  lemma {:induction false} WithoutAre(ops: seq<Op>, op: Op, refused: bool)
    ensures forall o :: o in Without(ops, op, refused) <==> o in ops && !Leaves(o, op, refused)
  {
    if ops != [] {
      WithoutAre(ops[..|ops| - 1], op, refused);
      assert ops == ops[..|ops| - 1] + [ops[|ops| - 1]];
    }
  }

  /** What each outcome leaves not placed. A refusal leaves nothing at or past its op in the
      chain; settling takes that op alone; not placed, it is kept. */
  lemma StatusSettles<W>(t: Table<W>, session: S.State, status: Status)
    ensures var (t', session', answered) := TakeStatus(t, session, status);
      answered.Some? ==>
        var a := answered.value;
        && (a.outcome.Refused? ==>
             && session' == S.Refuse(session, a.op)
             && forall o :: o in t'.unplaced <==> o in t.unplaced && !(SameChain(o, a.op) && o.no >= a.op.no))
        && (a.outcome.NotPlaced? ==> session' == session && forall o :: o in t'.unplaced <==> o in t.unplaced || o == a.op)
        && (a.outcome.Accepted? || a.outcome.Retained? ==>
             session' == session && forall o :: o in t'.unplaced <==> o in t.unplaced && o != a.op)
        && (status.code == Protocol && (exists kept | kept in t.unplaced :: Earlier(kept, a.op)) ==> a.outcome.NotPlaced?)
        && (a.newlyUnplaced <==> a.outcome.NotPlaced? && a.op !in t.unplaced)
  {
    var (t', session', answered) := TakeStatus(t, session, status);
    if answered.Some? {
      WithoutAre(t.unplaced, answered.value.op, answered.value.outcome.Refused?);
    }
  }

  /** A zone's timer runs only while the zone has ops not placed. */
  ghost predicate TimersNeeded<W>(t: Table<W>) {
    forall z | z in t.timers :: HasUnplaced(t, z)
  }

  lemma {:induction false} SendsKeepTimers<W>(t: Table<W>, hash: Op -> string, sends: seq<Sending<W>>)
    requires TimersNeeded(t)
    ensures TimersNeeded(OfferAll(t, hash, sends).0)
    ensures OfferAll(t, hash, sends).0.timers == t.timers
  {
    hide Holding;
    if sends != [] {
      var t1 := OfferAll(t, hash, sends[..|sends| - 1]).0;
      SendsKeepTimers(t, hash, sends[..|sends| - 1]);
      var t2 := Offer(t1, hash, sends[|sends| - 1].op, sends[|sends| - 1].waiter).0;
      forall z | z in t2.timers ensures HasUnplaced(t2, z) {
        var i :| 0 <= i < |t1.unplaced| && ZoneOf(t1.unplaced[i]) == z;
        assert t2.unplaced[i] == t1.unplaced[i];
      }
    }
  }

  lemma StatusKeepsTimers<W>(t: Table<W>, session: S.State, status: Status)
    requires TimersNeeded(t)
    ensures TimersNeeded(TakeStatus(t, session, status).0)
  {
    hide Meaning, Without, S.Refuse;
    var (t', _, answered) := TakeStatus(t, session, status);
    if answered.Some? {
      var op := answered.value.op;
      WithoutAre(t.unplaced, op, answered.value.outcome.Refused?);
      forall z | z in t'.timers ensures HasUnplaced(t', z) {
        if z != ZoneOf(op) {
          StillUnplaced(t, t', z, op, answered.value.outcome.Refused?);
        }
      }
    }
  }

  /** Settling one zone's op leaves another zone its ops not placed. */
  lemma StillUnplaced<W>(t: Table<W>, t': Table<W>, z: Zone, op: Op, refused: bool)
    requires HasUnplaced(t, z) && z != ZoneOf(op)
    requires forall o | o in t.unplaced && !Leaves(o, op, refused) :: o in t'.unplaced
    ensures HasUnplaced(t', z)
  {
    var i :| 0 <= i < |t.unplaced| && ZoneOf(t.unplaced[i]) == z;
    assert t.unplaced[i] in t.unplaced && t.unplaced[i] in t'.unplaced;
    var j :| 0 <= j < |t'.unplaced| && t'.unplaced[j] == t.unplaced[i];
    assert ZoneOf(t'.unplaced[j]) == z;
  }
}
