/** The client over every run: what its tables keep, that each waiter hears once, what
    `Accepted` and `live` mean over the history, and when an ack finds its own subscribe. */
module ClientRuns {
  import opened Wrappers
  import opened Bytes
  import opened Text
  import opened Ops
  import opened Answers
  import opened Subscribes
  import opened Clients
  import opened ClientLaws
  import S = Sessions
  import SessionLaws
  import AL = AnswerLaws
  import SL = SubscribeLaws

  // What every step keeps.

  /** Every op sent or not placed is of a shape the client takes, so a resend never fails for one. */
  ghost predicate Takable<W>(t: Table<W>, rules: Rules) {
    && (forall i | 0 <= i < |t.waiting| :: Takes(rules, t.waiting[i].op))
    && (forall i | 0 <= i < |t.unplaced| :: Takes(rules, t.unplaced[i]))
  }

  /** Nothing waits on a connection that is not there, and nothing of the last is remembered. */
  ghost predicate Idle<W, V>(c: Client<W, V>) {
    && c.answers.waiting == [] && c.answers.timers == map[]
    && c.subs == Fresh()
  }

  ghost predicate Good<W, V>(c: Client<W, V>, rules: Rules) {
    && SessionLaws.Sound(c.session)
    && SL.Settled(c.subs)
    && AL.TimersNeeded(c.answers)
    && Takable(c.answers, rules)
    && (!c.connected ==> Idle(c))
  }

  lemma {:induction false} OffersKeepTakable<W>(t: Table<W>, rules: Rules, sends: seq<Sending<W>>)
    requires Takable(t, rules) && forall i | 0 <= i < |sends| :: Takes(rules, sends[i].op)
    ensures Takable(OfferAll(t, rules.corr, sends).0, rules)
  {
    hide Takes, Holding;
    if sends != [] {
      OffersKeepTakable(t, rules, sends[..|sends| - 1]);
    }
  }

  lemma StatusKeepsTakable<W>(t: Table<W>, rules: Rules, session: S.State, status: Status)
    requires Takable(t, rules)
    ensures Takable(TakeStatus(t, session, status).0, rules)
  {
    hide Takes, Meaning, Without, S.Refuse;
    var (t', _, answered) := TakeStatus(t, session, status);
    if answered.Some? {
      var op := answered.value.op;
      AL.WithoutAre(t.unplaced, op, answered.value.outcome.Refused?);
      forall i | 0 <= i < |t'.unplaced| ensures Takes(rules, t'.unplaced[i]) {
        assert t'.unplaced[i] in t'.unplaced;
        assert t'.unplaced[i] in t.unplaced || t'.unplaced[i] == op;
      }
    }
  }

  lemma HandKeeps<W, V>(c: Client<W, V>, rules: Rules, sends: seq<Sending<W>>)
    requires Good(c, rules) && c.connected && forall i | 0 <= i < |sends| :: Takes(rules, sends[i].op)
    ensures Good(Hand(c, rules, sends), rules) && Hand(c, rules, sends).connected
  {
    hide Takes, SessionLaws.Sound, SL.Settled, AL.TimersNeeded, Takable, OfferAll;
    OffersKeepTakable(c.answers, rules, sends);
    AL.SendsKeepTimers(c.answers, rules.corr, sends);
  }

  lemma ResendKeeps<W, V>(c: Client<W, V>, rules: Rules, again: seq<Op>)
    requires Good(c, rules)
    ensures Good(Resend(c, rules, again), rules) && Resend(c, rules, again).connected == c.connected
  {
    hide Good, Hand, Takes;
    if Ships(c, rules, Unwaited(again)) {
      HandKeeps(c, rules, Unwaited(again));
    }
  }

  lemma ReturnKeeps<W, V>(c: Client<W, V>, rules: Rules, done: Subscribed<V>)
    requires Good(c, rules)
    ensures Good(Return(c, rules, done), rules) && Return(c, rules, done).connected == c.connected
  {
    hide Resend, SessionLaws.Sound, SL.Settled, AL.TimersNeeded, Takable, UnplacedIn;
    SessionLaws.NextKeeps(c.session, rules.hash, rules.swmr, SessionLaws.Resumption(done.zone));
    var c1 := c.(session := S.Resume(c.session, done.zone));
    ResendKeeps(c1, rules, UnplacedIn(c1.answers, done.zone));
  }

  lemma {:induction false} ReturnsKeep<W, V>(c: Client<W, V>, rules: Rules, done: seq<Subscribed<V>>)
    requires Good(c, rules)
    ensures Good(ReturnAll(c, rules, done), rules) && ReturnAll(c, rules, done).connected == c.connected
  {
    hide Return, Good;
    if done != [] {
      ReturnsKeep(c, rules, done[..|done| - 1]);
      ReturnKeeps(ReturnAll(c, rules, done[..|done| - 1]), rules, done[|done| - 1]);
    }
  }

  lemma EndKeeps<W, V>(c: Client<W, V>, rules: Rules, connected: bool)
    requires Good(c, rules)
    ensures Good(EndWaiting(c).(connected := connected), rules) && Idle(EndWaiting(c))
  {
    hide SessionLaws.Sound, Takes;
  }

  lemma ReportKeeps<W, V>(c: Client<W, V>, rules: Rules, a: Answered<W>)
    requires Good(c, rules) && c.connected
    ensures Good(Report(c, a), rules) && Report(c, a).connected
  {
    hide SessionLaws.Sound, SL.Settled, Takes;
  }

  lemma TakeKeeps<W, V>(c: Client<W, V>, rules: Rules, inbound: Inbound)
    requires Good(c, rules) && c.connected
    ensures Good(Take(c, rules, inbound), rules) && Take(c, rules, inbound).connected
  {
    hide SessionLaws.Sound, SL.Settled, AL.TimersNeeded, Takable, TakeError, ReturnAll, S.ApplyRemote, Receive, Fail, Ack, Abandon;
    match inbound
    case OpsIn(ops) =>
      SL.OthersSettle(c.subs, ops, Nil(), Unknown, NoStatus());
      SessionLaws.NextKeeps(c.session, rules.hash, rules.swmr, SessionLaws.Remote(ops));
      var (session, applied) := S.ApplyRemote(c.session, rules.swmr, ops);
      var (subs, done) := Receive(c.subs, ops);
      if applied {
        ReturnsKeep(c.(session := session, subs := subs), rules, done);
      }
    case HeadsIn(ack) =>
      SL.AckSettles(c.subs, ack);
      var (subs, acked) := Ack(c.subs, ack);
      if acked.Success? {
        ReturnsKeep(c.(subs := subs), rules, AsSeq(acked.value));
      }
    case ErrorIn(status) => TakeErrorKeeps(c, rules, status);
    case Untakable => SL.OthersSettle(c.subs, [], Nil(), Unknown, NoStatus());
  }

  function Nil(): Op {
    Op("", "", [], "", 0, None, 0, [], Value, [])
  }

  function NoStatus(): Status {
    Status(Ok, "", None, None, None)
  }

  lemma TakeErrorKeeps<W, V>(c: Client<W, V>, rules: Rules, status: Status)
    requires Good(c, rules) && c.connected
    ensures Good(TakeError(c, rules, status), rules) && TakeError(c, rules, status).connected
  {
    hide SessionLaws.Sound, SL.Settled, AL.TimersNeeded, Takable, TakeAnswer, Reason, RefuseAfterAck;
    SL.OthersSettle(c.subs, [], Nil(), Unknown, status);
    SL.RefusalNamesAZone(c.subs, status);
    var (_, reason) := Reason(c.subs, status);
    var (subs, after) := RefuseAfterAck(c.subs, status);
    if reason.None? && after.zones == [] {
      assert c.(subs := subs) == c;
      TakeAnswerKeeps(c, rules, status);
    }
  }

  lemma TakeAnswerKeeps<W, V>(c: Client<W, V>, rules: Rules, status: Status)
    requires Good(c, rules) && c.connected
    ensures Good(TakeAnswer(c, rules, status), rules) && TakeAnswer(c, rules, status).connected
  {
    hide SessionLaws.Sound, SL.Settled, AL.TimersNeeded, Takable, ReturnAll, TakeStatus, Report;
    var (answers, session, answered) := TakeStatus(c.answers, c.session, status);
    if answered.Some? {
      var a := answered.value;
      var (subs, done) := Subscribes.Answer(c.subs, a.op, a.outcome);
      SL.OthersSettle(c.subs, [], a.op, a.outcome, status);
      AL.StatusKeepsTimers(c.answers, c.session, status);
      StatusKeepsTakable(c.answers, rules, c.session, status);
      assert SessionLaws.Sound(session) by { StatusKeepsSession(c, rules, status); }
      var c1 := c.(answers := answers, session := session, subs := subs);
      ReportKeeps(c1, rules, a);
      ReturnsKeep(Report(c1, a), rules, done);
    }
  }

  lemma StatusKeepsSession<W, V>(c: Client<W, V>, rules: Rules, status: Status)
    requires SessionLaws.Sound(c.session)
    ensures SessionLaws.Sound(TakeStatus(c.answers, c.session, status).1)
  {
    hide SessionLaws.Sound, S.Refuse;
    var (_, session, answered) := TakeStatus(c.answers, c.session, status);
    if answered.Some? {
      SessionLaws.NextKeeps(c.session, rules.hash, rules.swmr, SessionLaws.Refusal(answered.value.op));
    }
  }

  lemma AppendKeeps<W, V>(c: Client<W, V>, rules: Rules, z: Zone, shape: Shape, payload: seq<byte>, frontier: seq<Head>, waiter: Option<W>)
    requires Good(c, rules)
    ensures Good(AppendOp(c, rules, z, shape, payload, frontier, waiter).0, rules)
  {
    hide SessionLaws.Sound, SL.Settled, AL.TimersNeeded, Takable, Hand;
    SessionLaws.NextKeeps(c.session, rules.hash, rules.swmr, SessionLaws.Local(z, shape, payload, frontier));
    var (session, made) := S.Append(c.session, rules.hash, rules.swmr, z, shape, payload, frontier);
    if c.connected && made.Success? {
      HandKeeps(c.(session := session), rules, [Sending(made.value, waiter)]);
    }
  }

  lemma SleepKeeps<W, V>(c: Client<W, V>, rules: Rules, zone: Zone)
    requires Good(c, rules)
    ensures Good(c.(answers := NextResend(c.answers, zone).0), rules)
  {
    hide SessionLaws.Sound, SL.Settled, Takes;
  }

  lemma NextKeeps<W, V>(c: Client<W, V>, rules: Rules, e: Event<W, V>)
    requires Good(c, rules)
    ensures Good(Next(c, rules, e), rules)
  {
    hide Good, Take, EndWaiting, AppendOp, Hand, Resend, Takes;
    match e
    case In(inbound) => if c.connected { TakeKeeps(c, rules, inbound); }
    case Connects => EndKeeps(c, rules, true);
    case Ends => EndKeeps(c, rules, false);
    case Appends(z, shape, payload, frontier, waiter) => AppendKeeps(c, rules, z, shape, payload, frontier, waiter);
    case Sends(sends) => if Ships(c, rules, sends) { HandKeeps(c, rules, sends); }
    case Asks(zone, asker) => AskKeeps(c, rules, zone, asker);
    case Sleeps(zone) => SleepKeeps(c, rules, zone);
    case Ticks(zone, timer) =>
      var again := ResendTick(c.answers, zone, timer);
      if again.Some? { ResendKeeps(c, rules, again.value); }
  }

  lemma AskKeeps<W, V>(c: Client<W, V>, rules: Rules, zone: Zone, asker: V)
    requires Good(c, rules)
    ensures Good(Subscribe(c, zone, asker), rules)
  {
    hide SessionLaws.Sound, Takable, AL.TimersNeeded;
  }

  lemma {:induction false} RunKeeps<W, V>(origin: string, bound: nat, rules: Rules, events: seq<Event<W, V>>)
    ensures Good(Run(origin, bound, rules, events), rules)
  {
    hide Next;
    if events != [] {
      hide Good;
      RunKeeps(origin, bound, rules, events[..|events| - 1]);
      NextKeeps(Run(origin, bound, rules, events[..|events| - 1]), rules, events[|events| - 1]);
    }
  }

  // Each waiter is told once.

  /** The waiters a run gave the client. */
  function OpsGiven<W(==), V>(origin: string, bound: nat, rules: Rules, events: seq<Event<W, V>>): multiset<W> {
    if events == [] then multiset{}
    else
      var before := events[..|events| - 1];
      OpsGiven(origin, bound, rules, before) + GivenOp(Run(origin, bound, rules, before), rules, events[|events| - 1])
  }

  function SubsGiven<W(==), V(==)>(origin: string, bound: nat, rules: Rules, events: seq<Event<W, V>>): multiset<V> {
    if events == [] then multiset{}
    else
      var before := events[..|events| - 1];
      SubsGiven(origin, bound, rules, before) + GivenSub(Run(origin, bound, rules, before), events[|events| - 1])
  }

  lemma {:induction false} RunCounts<W, V>(origin: string, bound: nat, rules: Rules, events: seq<Event<W, V>>)
    ensures OpWaiters(Run(origin, bound, rules, events)) == OpsGiven(origin, bound, rules, events)
    ensures SubWaiters(Run(origin, bound, rules, events)) == SubsGiven(origin, bound, rules, events)
  {
    hide Next, GivenOp, GivenSub;
    if events == [] {
      NewCounts<W, V>(origin, bound);
    } else {
      hide OpWaiters, SubWaiters;
      var before := events[..|events| - 1];
      RunCounts(origin, bound, rules, before);
      RunKeeps(origin, bound, rules, before);
      NextCounts(Run(origin, bound, rules, before), rules, events[|events| - 1]);
    }
  }

  lemma NewCounts<W, V>(origin: string, bound: nat)
    ensures OpWaiters<W, V>(New(origin, bound)) == multiset{} && SubWaiters<W, V>(New(origin, bound)) == multiset{}
  {
  }

  /** In every run each waiter given to the client has been told once, or is still held: of each,
      as many are held and told as were given. Off a connection none is held. */
  lemma EachWaiterHearsOnce<W, V>(origin: string, bound: nat, rules: Rules, events: seq<Event<W, V>>, w: W, v: V)
    ensures var c := Run(origin, bound, rules, events);
      && AL.Held(c.answers.waiting)[w] + AL.Told(c.told)[w] == OpsGiven(origin, bound, rules, events)[w]
      && SL.Held(c.subs)[v] + HeardBy(c.heard)[v] == SubsGiven(origin, bound, rules, events)[v]
      && (!c.connected ==> AL.Held(c.answers.waiting)[w] == 0 && SL.Held(c.subs)[v] == 0)
  {
    hide AL.Told, HeardBy, Run, SessionLaws.Sound, SL.Settled, AL.TimersNeeded, Takable;
    RunCounts(origin, bound, rules, events);
    RunKeeps(origin, bound, rules, events);
  }

  // A subscribe returns with its zone going again.

  /** When a subscribe returns its zone's own chain is no longer stopped; and, while the table of
      sends has room, every unplaced op of the zone is on its way again, in one frame and in its
      chain's order, before the waiter hears. */
  lemma ReturnPlaces<W, V>(c: Client<W, V>, rules: Rules, done: Subscribed<V>)
    requires Good(c, rules) && c.connected
    requires |c.answers.waiting| + |UnplacedIn(c.answers, done.zone)| <= c.answers.bound
    ensures var c', z, again := Return(c, rules, done), done.zone, UnplacedIn(c.answers, done.zone);
      && ChainKey(z.share, z.gladeId, z.key, c.session.origin) !in c'.session.unresumed
      && UnplacedIn(c'.answers, z) == [] && c'.answers.unplaced == c.answers.unplaced
      && AL.InOrder(again)
      && c'.frames == c.frames + (if again == [] then [] else [again])
      && c'.told == c.told && c'.heard == c.heard + [Replied(done)]
  {
    hide OfferAll, UnplacedIn, AL.InOrder, Takes, SessionLaws.Sound, SL.Settled, AL.TimersNeeded, InFlight;
    var again := UnplacedIn(c.answers, done.zone);
    AL.ResendGoesWhole(c.answers, rules.corr, done.zone);
    AL.UnplacedInResends(c.answers, done.zone);
    forall i | 0 <= i < |again| ensures Takes(rules, again[i]) {
      assert again[i] in again && again[i] in c.answers.unplaced;
    }
    var sends: seq<Sending<W>> := Unwaited(again);
    assert Ships(c, rules, sends);
    assert c.frames + [] == c.frames;
  }
}
