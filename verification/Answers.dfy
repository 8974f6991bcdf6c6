/**
 The ops a client sent and the node has not answered, and the ops not placed, as values:
 what a send, a status, the connection's end and the resend timers do to them.
 */
module Answers {
  import opened Wrappers
  import opened Bytes
  import opened Text
  import opened Ops
  import S = Sessions

  datatype Code = Ok | Retention | UnknownShare | Protocol | OtherCode(n: int)

  /** The wire's `Error`: the status of the op whose hash its `corr` is. */
  datatype Status = Status(code: Code, message: string, share: Option<string>, gladeId: Option<string>, corr: Option<string>)

  /** The node's answer to one op. */
  datatype Outcome =
    | Accepted
    | Retained
    | NotPlaced(message: string)
    | Refused(code: Code, message: string)
    | Unknown

  datatype Answered<W> = Answered(op: Op, outcome: Outcome, waiter: Option<W>, newlyUnplaced: bool)

  datatype Sent<W> = Sent(hash: string, op: Op, waiter: Option<W>)

  /** `waiting` in the order sent, `bound` of them at most; `unplaced` in the order statuses found
      them; `resends` and `timers` by zone, a timer there while it runs. */
  datatype Table<W> = Table(
    waiting: seq<Sent<W>>,
    bound: nat,
    unplaced: seq<Op>,
    resends: map<Zone, nat>,
    timers: map<Zone, nat>,
    timerCount: nat)

  function Empty<W>(bound: nat): Table<W> {
    Table([], bound, [], map[], map[], 0)
  }

  predicate InFlight<W(==)>(t: Table<W>, op: Op) {
    exists i | 0 <= i < |t.waiting| :: t.waiting[i].op == op
  }

  predicate Earlier(kept: Op, op: Op) {
    SameChain(kept, op) && kept.no < op.no
  }

  /** The first op of `op`'s chain before it, in `kept`, that is not placed and not in flight. */
  function Holding<W(==)>(t: Table<W>, kept: seq<Op>, op: Op): Option<Op> {
    if kept == [] then None
    else if Earlier(kept[0], op) && !InFlight(t, kept[0]) then Some(kept[0])
    else Holding(t, kept[1..], op)
  }

  function NotSent(no: int): string {
    "not sent: seq " + Decimal(no) + " of its chain is not placed"
  }

  function UnknownFate<W>(sent: Sent<W>): Answered<W> {
    Answered(sent.op, Unknown, sent.waiter, false)
  }

  /** One more waiting send; when that makes more than `bound`, the first is dropped, and told so. */
  function Keep<W>(t: Table<W>, hash: Op -> string, op: Op, waiter: Option<W>): (Table<W>, Option<Answered<W>>) {
    var waiting := t.waiting + [Sent(hash(op), op, waiter)];
    if |waiting| <= t.bound then (t.(waiting := waiting), None)
    else (t.(waiting := waiting[1..]), Some(UnknownFate(waiting[0])))
  }

  function Unplace<W>(t: Table<W>, op: Op): Table<W> {
    if op in t.unplaced then t else t.(unplaced := t.unplaced + [op])
  }

  /** One op to send: whether it goes now, and the answer due at once, if any. */
  function Offer<W(==)>(t: Table<W>, hash: Op -> string, op: Op, waiter: Option<W>): (Table<W>, bool, Option<Answered<W>>) {
    match Holding(t, t.unplaced, op)
    case Some(kept) => (Unplace(t, op), false, Some(Answered(op, NotPlaced(NotSent(kept.no)), waiter, op !in t.unplaced)))
    case None =>
      var (t', due) := Keep(t, hash, op, waiter);
      (t', true, due)
  }

  function AsSeq<T>(o: Option<T>): seq<T> {
    match o case None => [] case Some(x) => [x]
  }

  datatype Sending<W> = Sending(op: Op, waiter: Option<W>)

  function Zip<W>(ops: seq<Op>, waiters: seq<Option<W>>): seq<Sending<W>> {
    seq(if |ops| < |waiters| then |ops| else |waiters|,
        i requires 0 <= i < |ops| && i < |waiters| => Sending(ops[i], waiters[i]))
  }

  /** Ops sent with no waiter. */
  function Unwaited<W>(ops: seq<Op>): seq<Sending<W>> {
    seq(|ops|, i requires 0 <= i < |ops| => Sending(ops[i], None))
  }

  /** Ops to send, in order: the table after, those that go now, and the answers due at once. */
  function OfferAll<W(==)>(t: Table<W>, hash: Op -> string, sends: seq<Sending<W>>): (Table<W>, seq<Op>, seq<Answered<W>>) {
    if sends == [] then (t, [], [])
    else
      var (t1, now, due) := OfferAll(t, hash, sends[..|sends| - 1]);
      var (op, waiter) := (sends[|sends| - 1].op, sends[|sends| - 1].waiter);
      var (t2, goes, answer) := Offer(t1, hash, op, waiter);
      (t2, now + if goes then [op] else [], due + AsSeq(answer))
  }

  function Position<W>(waiting: seq<Sent<W>>, corr: string): (at: nat)
    ensures at <= |waiting| && (at < |waiting| ==> waiting[at].hash == corr)
    ensures forall i | 0 <= i < at :: waiting[i].hash != corr
  {
    if waiting == [] || waiting[0].hash == corr then 0 else 1 + Position(waiting[1..], corr)
  }

  /** Whether settling `op` takes `kept` off the ops not placed: a refusal takes its chain's tail. */
  predicate Leaves(kept: Op, op: Op, refused: bool) {
    if refused then SameChain(kept, op) && kept.no >= op.no else kept == op
  }

  function Without(ops: seq<Op>, op: Op, refused: bool): seq<Op> {
    if ops == [] then []
    else Without(ops[..|ops| - 1], op, refused) + if Leaves(ops[|ops| - 1], op, refused) then [] else [ops[|ops| - 1]]
  }

  /** The outcome a code stands for: a gap counts as not placed when an earlier op of the chain is
      already so. */
  function Meaning<W>(t: Table<W>, op: Op, status: Status): Outcome {
    match status.code
    case Ok => Accepted
    case Retention => Retained
    case UnknownShare => NotPlaced(status.message)
    case Protocol =>
      if exists i | 0 <= i < |t.unplaced| :: Earlier(t.unplaced[i], op) then NotPlaced(status.message)
      else Refused(Protocol, status.message)
    case OtherCode(_) => Refused(status.code, status.message)
  }

  /** The ops not placed after an answer: a refusal drops its op and the chain's tail. */
  function Settled<W>(t: Table<W>, op: Op, outcome: Outcome): Table<W> {
    match outcome
    case NotPlaced(_) => Unplace(t, op)
    case Refused(_, _) => t.(unplaced := Without(t.unplaced, op, true))
    case _ => t.(unplaced := Without(t.unplaced, op, false))
  }

  predicate HasUnplaced<W>(t: Table<W>, z: Zone) {
    exists i | 0 <= i < |t.unplaced| :: ZoneOf(t.unplaced[i]) == z
  }

  /** Once every op of a zone is placed its timer stops and its count restarts. */
  function Rested<W>(t: Table<W>, z: Zone): Table<W> {
    if HasUnplaced(t, z) then t else t.(resends := t.resends - {z}, timers := t.timers - {z})
  }

  /** One status: the first waiting send under its hash leaves the table, with its outcome; with none, nothing changes. */
  function TakeStatus<W>(t: Table<W>, session: S.State, status: Status): (Table<W>, S.State, Option<Answered<W>>) {
    if status.corr.None? then (t, session, None)
    else
      var at := Position(t.waiting, status.corr.value);
      if at == |t.waiting| then (t, session, None)
      else
        var Sent(_, op, waiter) := t.waiting[at];
        var t := t.(waiting := t.waiting[..at] + t.waiting[at + 1..]);
        var outcome := Meaning(t, op, status);
        var newly := outcome.NotPlaced? && op !in t.unplaced;
        (Rested(Settled(t, op, outcome), ZoneOf(op)),
         if outcome.Refused? then S.Refuse(session, op) else session,
         Some(Answered(op, outcome, waiter, newly)))
  }

  function AllUnknown<W>(waiting: seq<Sent<W>>): seq<Answered<W>> {
    seq(|waiting|, i requires 0 <= i < |waiting| => UnknownFate(waiting[i]))
  }

  /** The connection ended: every send's fate is unknown, and no timer runs. */
  function End<W>(t: Table<W>): (Table<W>, seq<Answered<W>>) {
    (t.(timers := map[], waiting := []), AllUnknown(t.waiting))
  }

  predicate ChainBefore(a: Op, b: Op) {
    Before(a.origin, b.origin) || (a.origin == b.origin && a.no < b.no)
  }

  function Placed(sorted: seq<Op>, op: Op): (at: nat)
    ensures at <= |sorted|
  {
    if sorted == [] || !ChainBefore(op, sorted[|sorted| - 1]) then |sorted| else Placed(sorted[..|sorted| - 1], op)
  }

  /** Ops by (origin, seq): a stable sort. */
  function Arrange(ops: seq<Op>): seq<Op> {
    if ops == [] then []
    else
      var sorted, op := Arrange(ops[..|ops| - 1]), ops[|ops| - 1];
      var at := Placed(sorted, op);
      sorted[..at] + [op] + sorted[at..]
  }

  /** Of `kept`, a zone's ops not in flight. */
  function Grounded<W(==)>(t: Table<W>, kept: seq<Op>, z: Zone): seq<Op> {
    if kept == [] then []
    else
      var op := kept[|kept| - 1];
      Grounded(t, kept[..|kept| - 1], z) + if ZoneOf(op) == z && !InFlight(t, op) then [op] else []
  }

  /** What a resend of a zone sends: its unplaced ops not in flight, by origin and seq. */
  function UnplacedIn<W(==)>(t: Table<W>, z: Zone): seq<Op> {
    Arrange(Grounded(t, t.unplaced, z))
  }

  function StartResending<W>(t: Table<W>, z: Zone): (Table<W>, Option<nat>) {
    if z in t.timers || !HasUnplaced(t, z) then (t, None)
    else (t.(timerCount := t.timerCount + 1, timers := t.timers[z := t.timerCount + 1]), Some(t.timerCount + 1))
  }

  /** The backoff in seconds: 1, doubling, to 30. */
  function ResendDelay(attempt: nat): nat {
    match attempt case 0 => 1 case 1 => 2 case 2 => 4 case 3 => 8 case 4 => 16 case _ => 30
  }

  function NextResend<W>(t: Table<W>, z: Zone): (Table<W>, nat) {
    var count := if z in t.resends then t.resends[z] else 0;
    (t.(resends := t.resends[z := count + 1]), ResendDelay(count))
  }

  function ResendTick<W(==)>(t: Table<W>, z: Zone, timer: nat): Option<seq<Op>> {
    if z in t.timers && t.timers[z] == timer then Some(UnplacedIn(t, z)) else None
  }
}

/** The same table in place. */
module AnswerTable {
  import opened Wrappers
  import opened Ops
  import opened Answers
  import A = Answers
  import S = Sessions
  import opened SessionLog

  class Table<W(==)> {
    const bound: nat
    const hash: Op -> string
    var waiting: seq<Sent<W>>
    var unplaced: seq<Op>
    var resends: map<Zone, nat>
    var timers: map<Zone, nat>
    var timerCount: nat

    ghost function Now(): A.Table<W>
      reads this
    {
      A.Table(waiting, bound, unplaced, resends, timers, timerCount)
    }

    constructor (bound: nat, hash: Op -> string)
      ensures Now() == Empty(bound) && this.hash == hash
    {
      this.bound, this.hash := bound, hash;
      waiting, unplaced, resends, timers, timerCount := [], [], map[], map[], 0;
    }

    method Flies(op: Op) returns (r: bool)
      ensures r == InFlight(Now(), op)
    {
      for i := 0 to |waiting|
        invariant forall j | 0 <= j < i :: waiting[j].op != op
      {
        if waiting[i].op == op {
          return true;
        }
      }
      return false;
    }

    /** The first op not placed, before `op` in its chain, that is not in flight. */
    method HeldBy(op: Op) returns (kept: Option<Op>)
      ensures kept == Holding(Now(), unplaced, op)
    {
      for i := 0 to |unplaced|
        invariant Holding(Now(), unplaced, op) == Holding(Now(), unplaced[i..], op)
      {
        assert unplaced[i..][1..] == unplaced[i + 1..];
        if Earlier(unplaced[i], op) {
          var flies := Flies(unplaced[i]);
          if !flies {
            return Some(unplaced[i]);
          }
        }
      }
      return None;
    }

    method Sent(op: Op, waiter: Option<W>) returns (due: Option<Answered<W>>)
      modifies this`waiting
      ensures (Now(), due) == Keep(old(Now()), hash, op, waiter)
    {
      waiting := waiting + [A.Sent(hash(op), op, waiter)];
      if |waiting| <= bound {
        return None;
      }
      due := Some(UnknownFate(waiting[0]));
      waiting := waiting[1..];
    }

    method ToSend(ops: seq<Op>, waiters: seq<Option<W>>) returns (now: seq<Op>, answered: seq<Answered<W>>)
      modifies this
      ensures (Now(), now, answered) == OfferAll(old(Now()), hash, Zip(ops, waiters))
    {
      now, answered := [], [];
      var sends := Zip(ops, waiters);
      for i := 0 to |sends|
        invariant (Now(), now, answered) == OfferAll(old(Now()), hash, sends[..i])
      {
        assert sends[..i + 1][..i] == sends[..i];
        assert now + [] == now && answered + [] == answered;
        var op, waiter := sends[i].op, sends[i].waiter;
        var before := HeldBy(op);
        if before.Some? {
          var newly := op !in unplaced;
          if newly {
            unplaced := unplaced + [op];
          }
          answered := answered + [Answered(op, NotPlaced(NotSent(before.value.no)), waiter, newly)];
        } else {
          var due := Sent(op, waiter);
          answered := answered + AsSeq(due);
          now := now + [op];
        }
      }
      assert sends[..|sends|] == sends;
    }

    method Retain(op: Op, refused: bool)
      modifies this`unplaced
      ensures unplaced == Without(old(unplaced), op, refused)
    {
      var kept: seq<Op> := [];
      for i := 0 to |unplaced|
        invariant unplaced == old(unplaced) && kept == Without(unplaced[..i], op, refused)
      {
        assert unplaced[..i + 1][..i] == unplaced[..i];
        if !Leaves(unplaced[i], op, refused) {
          kept := kept + [unplaced[i]];
        }
      }
      assert unplaced[..|unplaced|] == unplaced;
      unplaced := kept;
    }

    method Status(session: Session, status: A.Status) returns (answered: Option<Answered<W>>)
      modifies this, session
      ensures (Now(), session.Now(), answered) == TakeStatus(old(Now()), old(session.Now()), status)
    {
      if status.corr.None? {
        return None;
      }
      var at := 0;
      while at < |waiting| && waiting[at].hash != status.corr.value
        invariant at <= |waiting| && forall i | 0 <= i < at :: waiting[i].hash != status.corr.value
      {
        at := at + 1;
      }
      assert at == Position(waiting, status.corr.value);
      if at == |waiting| {
        return None;
      }
      hide Without, Position, S.Refuse;
      var op, waiter := waiting[at].op, waiting[at].waiter;
      waiting := waiting[..at] + waiting[at + 1..];
      var outcome;
      match status.code {
        case Ok => outcome := Accepted;
        case Retention => outcome := Retained;
        case UnknownShare => outcome := NotPlaced(status.message);
        case Protocol =>
          if exists i | 0 <= i < |unplaced| :: Earlier(unplaced[i], op) {
            outcome := NotPlaced(status.message);
          } else {
            outcome := Refused(Protocol, status.message);
          }
        case OtherCode(_) => outcome := Refused(status.code, status.message);
      }
      assert outcome == Meaning(Now(), op, status);
      var newly := false;
      if outcome.NotPlaced? {
        if op !in unplaced {
          unplaced, newly := unplaced + [op], true;
        }
      } else {
        Retain(op, outcome.Refused?);
        if outcome.Refused? {
          session.Refused(op);
        }
      }
      var zone := ZoneOf(op);
      if !HasUnplacedIn(zone) {
        resends, timers := resends - {zone}, timers - {zone};
      }
      return Some(Answered(op, outcome, waiter, newly));
    }

    predicate HasUnplacedIn(zone: Zone)
      reads this
    {
      exists i | 0 <= i < |unplaced| :: ZoneOf(unplaced[i]) == zone
    }

    method Ended() returns (answered: seq<Answered<W>>)
      modifies this
      ensures (Now(), answered) == End(old(Now()))
    {
      timers := map[];
      answered := AllUnknown(waiting);
      waiting := [];
    }

    method Unplaced(zone: Zone) returns (ops: seq<Op>)
      ensures ops == UnplacedIn(Now(), zone)
    {
      ops := [];
      for i := 0 to |unplaced|
        invariant ops == Grounded(Now(), unplaced[..i], zone)
      {
        assert unplaced[..i + 1][..i] == unplaced[..i];
        var flies := Flies(unplaced[i]);
        if ZoneOf(unplaced[i]) == zone && !flies {
          ops := ops + [unplaced[i]];
        }
      }
      assert unplaced[..|unplaced|] == unplaced;
      ops := Arrange(ops);
    }

    method StartResending(zone: Zone) returns (timer: Option<nat>)
      modifies this
      ensures (Now(), timer) == A.StartResending(old(Now()), zone)
    {
      if zone in timers || !HasUnplacedIn(zone) {
        return None;
      }
      timerCount := timerCount + 1;
      timers := timers[zone := timerCount];
      return Some(timerCount);
    }

    method NextResend(zone: Zone) returns (wait: nat)
      modifies this`resends
      ensures (Now(), wait) == A.NextResend(old(Now()), zone)
    {
      var count := if zone in resends then resends[zone] else 0;
      wait := ResendDelay(count);
      resends := resends[zone := count + 1];
    }

    method ResendTick(zone: Zone, timer: nat) returns (again: Option<seq<Op>>)
      ensures again == A.ResendTick(Now(), zone, timer)
    {
      if zone !in timers || timers[zone] != timer {
        return None;
      }
      var ops := Unplaced(zone);
      return Some(ops);
    }
  }
}
