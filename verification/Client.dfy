/**
 The client over one node: its session, its table of sends, its table of subscribes, and
 what each frame, send and end does to the three together, as values. Each worker's turn is
 one step; frames go out as they are made.
 */
module Clients {
  import opened Wrappers
  import opened Bytes
  import opened Text
  import opened Ops
  import opened Answers
  import opened Subscribes
  import S = Sessions

  /** How ops are hashed, the text their hash goes by in a status, and which SWMR payloads decode. */
  datatype Rules = Rules(hash: Op -> seq<byte>, corr: Op -> string, swmr: seq<byte> -> bool)

  /** What a subscribe's waiter hears: the node's answer, or that none will come. */
  datatype Heard<V> = Replied(subscribed: Subscribed<V>) | Dropped(waiter: V)

  /** `frames`, `told` and `heard` are what has gone out: to the node, to ops' waiters and
      listeners, and to subscribes' waiters. */
  datatype Client<W, V> = Client(
    session: S.State,
    answers: Table<W>,
    subs: Replays<V>,
    connected: bool,
    frames: seq<seq<Op>>,
    told: seq<Answered<W>>,
    heard: seq<Heard<V>>)

  function New<W, V>(origin: string, bound: nat): Client<W, V> {
    Client(S.State(origin, 0, map[], map[]), Empty(bound), Fresh(), false, [], [], [])
  }

  predicate Takes(rules: Rules, op: Op) {
    S.Supported(op.shape, op.payload, rules.swmr)
  }

  function Put<W, V>(c: Client<W, V>, now: seq<Op>, due: seq<Answered<W>>): Client<W, V> {
    c.(told := c.told + due, frames := if now == [] then c.frames else c.frames + [now])
  }

  function Hand<W(==), V>(c: Client<W, V>, rules: Rules, sends: seq<Sending<W>>): Client<W, V> {
    var (answers, now, due) := OfferAll(c.answers, rules.corr, sends);
    Put(c.(answers := answers), now, due)
  }

  predicate Ships<W, V>(c: Client<W, V>, rules: Rules, sends: seq<Sending<W>>) {
    c.connected && forall i | 0 <= i < |sends| :: Takes(rules, sends[i].op)
  }

  /** Ops sent in one frame, or none: every one must be of a shape the client takes. */
  function Ship<W(==), V>(c: Client<W, V>, rules: Rules, sends: seq<Sending<W>>): Client<W, V> {
    if Ships(c, rules, sends) then Hand(c, rules, sends) else c
  }

  function Resend<W(==), V>(c: Client<W, V>, rules: Rules, again: seq<Op>): Client<W, V> {
    if again == [] then c else Ship(c, rules, Unwaited(again))
  }

  /** One completed subscribe: the zone's own chain resumes, its unplaced ops are resent, and only
      then does the waiter hear. */
  function Return<W(==), V>(c: Client<W, V>, rules: Rules, done: Subscribed<V>): Client<W, V> {
    var c := c.(session := S.Resume(c.session, done.zone));
    var c := Resend(c, rules, UnplacedIn(c.answers, done.zone));
    c.(heard := c.heard + [Replied(done)])
  }

  function ReturnAll<W(==), V>(c: Client<W, V>, rules: Rules, done: seq<Subscribed<V>>): Client<W, V> {
    if done == [] then c else Return(ReturnAll(c, rules, done[..|done| - 1]), rules, done[|done| - 1])
  }

  function Replies<V>(done: seq<Subscribed<V>>): seq<Heard<V>> {
    seq(|done|, i requires 0 <= i < |done| => Replied(done[i]))
  }

  function Drops<V>(waiters: seq<V>): seq<Heard<V>> {
    seq(|waiters|, i requires 0 <= i < |waiters| => Dropped(waiters[i]))
  }

  function GiveUp<W, V>(c: Client<W, V>, a: Abandoned<V>): Client<W, V> {
    c.(heard := c.heard + Drops(a.failed) + Replies(a.refused))
  }

  function TakeOps<W(==), V>(c: Client<W, V>, rules: Rules, ops: seq<Op>): Client<W, V> {
    var (session, applied) := S.ApplyRemote(c.session, rules.swmr, ops);
    if !applied then
      var (subs, failed) := Fail(c.subs, ops);
      c.(subs := subs, heard := c.heard + Drops(failed))
    else
      var (subs, done) := Receive(c.subs, ops);
      ReturnAll(c.(session := session, subs := subs), rules, done)
  }

  function TakeHeads<W(==), V>(c: Client<W, V>, rules: Rules, ack: seq<StreamHeads>): Client<W, V> {
    var (subs, acked) := Ack(c.subs, ack);
    match acked
    case Success(done) => ReturnAll(c.(subs := subs), rules, AsSeq(done))
    case Failure(abandoned) => GiveUp(c.(subs := subs), abandoned)
  }

  /** An op's answer: its waiter hears, and its zone's timer starts while it has ops not placed. */
  function Report<W, V>(c: Client<W, V>, a: Answered<W>): Client<W, V> {
    c.(told := c.told + [a], answers := StartResending(c.answers, ZoneOf(a.op)).0)
  }

  function TakeAnswer<W(==), V>(c: Client<W, V>, rules: Rules, status: Status): Client<W, V> {
    var (answers, session, answered) := TakeStatus(c.answers, c.session, status);
    match answered
    case None => c
    case Some(a) =>
      var (subs, done) := Subscribes.Answer(c.subs, a.op, a.outcome);
      ReturnAll(Report(c.(answers := answers, session := session, subs := subs), a), rules, done)
  }

  /** An `Error`: a refused subscribe's reason, or zones refused after their ack, or an op's status. */
  function TakeError<W(==), V>(c: Client<W, V>, rules: Rules, status: Status): Client<W, V> {
    var (subs, reason) := Reason(c.subs, status);
    if reason.Some? then c.(subs := subs, heard := c.heard + [Replied(reason.value)])
    else
      var (subs, after) := RefuseAfterAck(c.subs, status);
      if after.zones != [] then c.(subs := subs, heard := c.heard + Replies(after.subscribes))
      else TakeAnswer(c.(subs := subs), rules, status)
  }

  function NotTaken<W, V>(c: Client<W, V>): Client<W, V> {
    var (subs, abandoned) := Abandon(c.subs);
    GiveUp(c.(subs := subs), abandoned)
  }

  /** Both tables let go of all that waits, and every waiter hears that its answer will not come. */
  function EndWaiting<W, V>(c: Client<W, V>): Client<W, V> {
    var (answers, unknown) := Answers.End(c.answers);
    var (subs, abandoned) := Subscribes.End(c.subs);
    GiveUp(c.(answers := answers, subs := subs, told := c.told + unknown), abandoned)
  }

  /** A local append, sent; refused before the chain moves when it cannot be. */
  function AppendOp<W(==), V>(c: Client<W, V>, rules: Rules, z: Zone, shape: Shape, payload: seq<byte>,
                              frontier: seq<Head>, waiter: Option<W>): (Client<W, V>, Option<Op>) {
    if !c.connected then (c, None)
    else
      match S.Append(c.session, rules.hash, rules.swmr, z, shape, payload, frontier)
      case (_, Failure(_)) => (c, None)
      case (session, Success(op)) => (Hand(c.(session := session), rules, [Sending(op, waiter)]), Some(op))
  }

  function Subscribe<W, V>(c: Client<W, V>, zone: Zone, waiter: V): Client<W, V> {
    if c.connected then c.(subs := Ask(c.subs, zone, waiter)) else c
  }

  function Tick<W(==), V>(c: Client<W, V>, rules: Rules, zone: Zone, timer: nat): Client<W, V> {
    match ResendTick(c.answers, zone, timer)
    case None => c
    case Some(again) => Resend(c, rules, again)
  }

  /** What the node sends on the connection. */
  datatype Inbound =
    | OpsIn(ops: seq<Op>)
    | HeadsIn(ack: seq<StreamHeads>)
    | ErrorIn(status: Status)
    | Untakable

  function Take<W(==), V>(c: Client<W, V>, rules: Rules, inbound: Inbound): Client<W, V> {
    match inbound
    case OpsIn(ops) => TakeOps(c, rules, ops)
    case HeadsIn(ack) => TakeHeads(c, rules, ack)
    case ErrorIn(status) => TakeError(c, rules, status)
    case Untakable => NotTaken(c)
  }

  datatype Event<W, V> =
    | In(inbound: Inbound)
    | Connects
    | Ends
    | Appends(z: Zone, shape: Shape, payload: seq<byte>, frontier: seq<Head>, waiter: Option<W>)
    | Sends(sends: seq<Sending<W>>)
    | Asks(zone: Zone, asker: V)
    | Sleeps(zone: Zone)
    | Ticks(zone: Zone, timer: nat)

  /** A frame is read only while connected. */
  function Next<W(==), V>(c: Client<W, V>, rules: Rules, e: Event<W, V>): Client<W, V> {
    match e
    case In(inbound) => if c.connected then Take(c, rules, inbound) else c
    case Connects => EndWaiting(c).(connected := true)
    case Ends => EndWaiting(c).(connected := false)
    case Appends(z, shape, payload, frontier, waiter) => AppendOp(c, rules, z, shape, payload, frontier, waiter).0
    case Sends(sends) => Ship(c, rules, sends)
    case Asks(zone, asker) => Subscribe(c, zone, asker)
    case Sleeps(zone) => c.(answers := NextResend(c.answers, zone).0)
    case Ticks(zone, timer) => Tick(c, rules, zone, timer)
  }

  function Run<W(==), V>(origin: string, bound: nat, rules: Rules, events: seq<Event<W, V>>): Client<W, V> {
    if events == [] then New(origin, bound)
    else Next(Run(origin, bound, rules, events[..|events| - 1]), rules, events[|events| - 1])
  }
}

/** The client in place: the tables it locks, each updated by its own methods. */
module ClientInner {
  import opened Wrappers
  import opened Bytes
  import opened Text
  import opened Ops
  import opened A = Answers
  import opened R = Subscribes
  import opened Clients
  import S = Sessions
  import SessionLog
  import AnswerTable
  import SubscribeTable

  class Inner<W(==), V(==)> {
    const rules: Rules
    const session: SessionLog.Session
    const answers: AnswerTable.Table<W>
    const subscribes: SubscribeTable.Table<V>
    var connected: bool
    var frames: seq<seq<Op>>
    var told: seq<Answered<W>>
    var heard: seq<Heard<V>>

    /** The tables hash and check ops as the client does. */
    ghost predicate Valid() {
      session.hash == rules.hash && session.swmr == rules.swmr && answers.hash == rules.corr
    }

    ghost function Now(): Client<W, V>
      reads this, session, answers, subscribes
    {
      Client(session.Now(), answers.Now(), subscribes.Now(), connected, frames, told, heard)
    }

    constructor (origin: string, bound: nat, rules: Rules)
      ensures Valid() && this.rules == rules
      ensures Now() == New(origin, bound)
      ensures fresh(session) && fresh(answers) && fresh(subscribes)
    {
      this.rules := rules;
      session := new SessionLog.Session(origin, rules.hash, rules.swmr);
      answers := new AnswerTable.Table(bound, rules.corr);
      subscribes := new SubscribeTable.Table();
      connected, frames, told, heard := false, [], [], [];
    }

    method Ship(ops: seq<Op>, waiters: seq<Option<W>>) returns (ok: bool)
      requires Valid() && |ops| == |waiters|
      modifies this, answers
      ensures ok == Ships(old(Now()), rules, Zip(ops, waiters))
      ensures Now() == Clients.Ship(old(Now()), rules, Zip(ops, waiters))
    {
      for i := 0 to |ops|
        invariant forall j | 0 <= j < i :: Takes(rules, ops[j])
      {
        if !Takes(rules, ops[i]) {
          assert Zip(ops, waiters)[i].op == ops[i];
          return false;
        }
      }
      if !connected {
        return false;
      }
      var now, due := answers.ToSend(ops, waiters);
      Put(now, due);
      return true;
    }

    method Put(now: seq<Op>, due: seq<Answered<W>>)
      modifies this
      ensures Now() == Clients.Put(old(Now()), now, due)
    {
      told := told + due;
      if now != [] {
        frames := frames + [now];
      }
    }

    method SendAgain(again: seq<Op>)
      requires Valid()
      modifies this, answers
      ensures Now() == Resend(old(Now()), rules, again)
    {
      if again != [] {
        var waiters := seq(|again|, _ => None);
        assert Zip(again, waiters) == Unwaited(again);
        var _ := Ship(again, waiters);
      }
    }

    method CaughtUp(done: seq<Subscribed<V>>)
      requires Valid()
      modifies this, session, answers
      ensures Now() == ReturnAll(old(Now()), rules, done)
    {
      for i := 0 to |done|
        invariant Now() == ReturnAll(old(Now()), rules, done[..i])
      {
        assert done[..i + 1][..i] == done[..i];
        session.Resumed(done[i].zone);
        var again := answers.Unplaced(done[i].zone);
        SendAgain(again);
        heard := heard + [Replied(done[i])];
      }
      assert done[..|done|] == done;
    }

    method Abandon(abandoned: Abandoned<V>)
      modifies this
      ensures Now() == GiveUp(old(Now()), abandoned)
    {
      heard := heard + Drops(abandoned.failed) + Replies(abandoned.refused);
    }

    method NotTaken()
      modifies this, subscribes
      ensures Now() == Clients.NotTaken(old(Now()))
    {
      var abandoned := subscribes.NotTaken();
      Abandon(abandoned);
    }

    method TakeOps(ops: seq<Op>)
      requires Valid()
      modifies this, session, answers, subscribes
      ensures Now() == Clients.TakeOps(old(Now()), rules, ops)
    {
      var applied := session.ApplyRemote(ops);
      if !applied {
        var failed := subscribes.Failed(ops);
        heard := heard + Drops(failed);
        return;
      }
      var done := subscribes.Received(ops);
      CaughtUp(done);
    }

    method TakeHeads(ack: seq<StreamHeads>)
      requires Valid()
      modifies this, session, answers, subscribes
      ensures Now() == Clients.TakeHeads(old(Now()), rules, ack)
    {
      var acked := subscribes.Acked(ack);
      match acked {
        case Success(done) => CaughtUp(AsSeq(done));
        case Failure(abandoned) => Abandon(abandoned);
      }
    }

    method TakeError(status: Status)
      requires Valid()
      modifies this, session, answers, subscribes
      ensures Now() == Clients.TakeError(old(Now()), rules, status)
    {
      var refused := subscribes.Reason(status);
      if refused.Some? {
        heard := heard + [Replied(refused.value)];
        return;
      }
      var afterAck := subscribes.RefusedAfterAck(status);
      if afterAck.zones != [] {
        heard := heard + Replies(afterAck.subscribes);
        return;
      }
      var answered := answers.Status(session, status);
      if answered.Some? {
        var done := subscribes.Answered(answered.value.op, answered.value.outcome);
        told := told + [answered.value];
        var _ := answers.StartResending(ZoneOf(answered.value.op));
        CaughtUp(done);
      }
    }

    method Take(inbound: Inbound)
      requires Valid()
      modifies this, session, answers, subscribes
      ensures Now() == Clients.Take(old(Now()), rules, inbound)
    {
      match inbound {
        case OpsIn(ops) => TakeOps(ops);
        case HeadsIn(ack) => TakeHeads(ack);
        case ErrorIn(status) => TakeError(status);
        case Untakable => NotTaken();
      }
    }

    method EndWaiting()
      modifies this, answers, subscribes
      ensures Now() == Clients.EndWaiting(old(Now()))
    {
      var unknown := answers.Ended();
      told := told + unknown;
      var abandoned := subscribes.Ended();
      Abandon(abandoned);
    }

    method Establish()
      modifies this, answers, subscribes
      ensures Now() == Clients.EndWaiting(old(Now())).(connected := true)
    {
      connected := false;
      EndWaiting();
      connected := true;
    }

    method OnConnectionEnd()
      modifies this, answers, subscribes
      ensures Now() == Clients.EndWaiting(old(Now())).(connected := false)
    {
      connected := false;
      EndWaiting();
    }

    method AppendOp(z: Zone, shape: Shape, payload: seq<byte>, frontier: seq<Head>, waiter: Option<W>) returns (r: Option<Op>)
      requires Valid()
      modifies this, session, answers
      ensures (Now(), r) == Clients.AppendOp(old(Now()), rules, z, shape, payload, frontier, waiter)
    {
      if !connected {
        return None;
      }
      var made := session.Append(z, shape, payload, frontier);
      if made.Failure? {
        return None;
      }
      var now, due := answers.ToSend([made.value], [waiter]);
      assert Zip([made.value], [waiter]) == [Sending(made.value, waiter)];
      Put(now, due);
      return Some(made.value);
    }

    method Subscribe(zone: Zone, waiter: V) returns (ok: bool)
      modifies subscribes
      ensures ok == connected && Now() == Clients.Subscribe(old(Now()), zone, waiter)
    {
      if connected {
        subscribes.Sent(zone, waiter);
      }
      return connected;
    }

    /** One turn of a zone's resend loop, once its wait is over: whether the loop goes on. */
    method ResendTurn(zone: Zone, timer: nat) returns (goes: bool)
      requires Valid()
      modifies this, answers
      ensures Now() == Tick(old(Now()), rules, zone, timer)
      ensures goes <==> ResendTick(old(answers.Now()), zone, timer).Some?
    {
      var again := answers.ResendTick(zone, timer);
      if again.Some? {
        SendAgain(again.value);
      }
      return again.Some?;
    }
  }
}
