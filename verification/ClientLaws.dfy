/** What every run of the client keeps, and that each waiter it is given hears once, or is
    still waited for. */
module ClientLaws {
  import opened Wrappers
  import opened Bytes
  import opened Text
  import opened Ops
  import opened Answers
  import opened Subscribes
  import opened Clients
  import S = Sessions
  import SessionLaws
  import AL = AnswerLaws
  import SL = SubscribeLaws

  // Waiters.

  function Listeners<V>(heard: seq<Heard<V>>): seq<V> {
    seq(|heard|, i requires 0 <= i < |heard| => match heard[i] case Replied(s) => s.waiter case Dropped(w) => w)
  }

  function HeardBy<V>(heard: seq<Heard<V>>): multiset<V> {
    multiset(Listeners(heard))
  }

  lemma HeardConcat<V>(a: seq<Heard<V>>, b: seq<Heard<V>>)
    ensures HeardBy(a + b) == HeardBy(a) + HeardBy(b)
  {
    assert Listeners(a + b) == Listeners(a) + Listeners(b);
  }

  lemma RepliesHear<V>(done: seq<Subscribed<V>>, waiters: seq<V>)
    ensures HeardBy(Replies(done)) == SL.ToldBy(done) && HeardBy(Drops(waiters)) == multiset(waiters)
  {
    assert Listeners(Replies(done)) == SL.Told(done);
    assert Listeners(Drops(waiters)) == waiters;
  }

  lemma ReplyHears<V>(done: Subscribed<V>)
    ensures HeardBy([Replied(done)]) == multiset{done.waiter}
  {
    assert Listeners([Replied(done)]) == [done.waiter];
  }

  /** The ops' waiters and the subscribes' waiters a client has had: still held, or told. */
  function OpWaiters<W, V>(c: Client<W, V>): multiset<W> {
    AL.Held(c.answers.waiting) + AL.Told(c.told)
  }

  function SubWaiters<W, V>(c: Client<W, V>): multiset<V> {
    SL.Held(c.subs) + HeardBy(c.heard)
  }

  lemma HandCounts<W, V>(c: Client<W, V>, rules: Rules, sends: seq<Sending<W>>)
    ensures var c' := Hand(c, rules, sends);
      OpWaiters(c') == OpWaiters(c) + AL.Given(sends) && c'.subs == c.subs && c'.heard == c.heard && c'.session == c.session
  {
    hide OfferAll, AL.Held, AL.Told, AL.Given;
    var (answers, now, due) := OfferAll(c.answers, rules.corr, sends);
    AL.SendsTellOrHold(c.answers, rules.corr, sends);
    AL.ToldConcat(c.told, due);
    Regroup(AL.Held(answers.waiting), AL.Told(due), AL.Held(c.answers.waiting), AL.Given(sends), AL.Told(c.told));
  }

  lemma Regroup<X>(held': multiset<X>, due: multiset<X>, held: multiset<X>, given: multiset<X>, told: multiset<X>)
    requires held' + due == held + given
    ensures held' + (told + due) == held + told + given
  {
    assert held' + (told + due) == held' + due + told;
  }

  lemma {:induction false} NoneGiven<W>(ops: seq<Op>)
    ensures AL.Given<W>(Unwaited(ops)) == multiset{}
  {
    if ops != [] {
      NoneGiven<W>(ops[..|ops| - 1]);
      assert Unwaited<W>(ops)[..|ops| - 1] == Unwaited<W>(ops[..|ops| - 1]);
    }
  }

  lemma ResendCounts<W, V>(c: Client<W, V>, rules: Rules, again: seq<Op>)
    ensures var c' := Resend(c, rules, again);
      OpWaiters(c') == OpWaiters(c) && c'.subs == c.subs && c'.heard == c.heard && c'.session == c.session
  {
    hide Hand, OpWaiters, AL.Given, Ships;
    HandCounts(c, rules, Unwaited(again));
    NoneGiven<W>(again);
  }

  lemma {:induction false} ReturnsCount<W, V>(c: Client<W, V>, rules: Rules, done: seq<Subscribed<V>>)
    ensures var c' := ReturnAll(c, rules, done);
      OpWaiters(c') == OpWaiters(c) && c'.subs == c.subs && HeardBy(c'.heard) == HeardBy(c.heard) + SL.ToldBy(done)
  {
    hide Resend, OpWaiters, HeardBy, SL.ToldBy, UnplacedIn;
    if done == [] {
      NoneTold<V>();
    } else {
      var init, last := done[..|done| - 1], done[|done| - 1];
      ReturnsCount(c, rules, init);
      var c1 := ReturnAll(c, rules, init);
      var c2 := c1.(session := S.Resume(c1.session, last.zone));
      assert OpWaiters(c2) == OpWaiters(c1) by { SameWaiters(c1, c2); }
      ResendCounts(c2, rules, UnplacedIn(c2.answers, last.zone));
      var c3 := Resend(c2, rules, UnplacedIn(c2.answers, last.zone));
      HeardConcat(c1.heard, [Replied(last)]);
      ReplyHears(last);
      SameWaiters(c3, c3.(heard := c3.heard + [Replied(last)]));
      assert done == init + [last];
      SL.ToldSplit(init, [last]);
      ToldOne(last);
    }
  }

  lemma NoneTold<V>()
    ensures SL.ToldBy<V>([]) == multiset{}
  {
  }

  lemma ToldOne<V>(done: Subscribed<V>)
    ensures SL.ToldBy([done]) == multiset{done.waiter}
  {
    assert SL.Told([done]) == [done.waiter];
  }

  lemma SameWaiters<W, V>(c: Client<W, V>, c': Client<W, V>)
    requires c'.answers == c.answers && c'.told == c.told
    ensures OpWaiters(c') == OpWaiters(c)
  {
  }

  /** The waiters one event gives the client: those of sends that go, and of a subscribe sent. */
  function GivenOp<W(==), V>(c: Client<W, V>, rules: Rules, e: Event<W, V>): multiset<W> {
    match e
    case Appends(z, shape, payload, frontier, waiter) =>
      if AppendOp(c, rules, z, shape, payload, frontier, waiter).1.Some? then AL.One(waiter) else multiset{}
    case Sends(sends) => if Ships(c, rules, sends) then AL.Given(sends) else multiset{}
    case _ => multiset{}
  }

  function GivenSub<W, V(==)>(c: Client<W, V>, e: Event<W, V>): multiset<V> {
    if e.Asks? && c.connected then multiset{e.asker} else multiset{}
  }

  lemma OneGiven<W>(op: Op, waiter: Option<W>)
    ensures AL.Given([Sending(op, waiter)]) == AL.One(waiter)
  {
    var sends := [Sending(op, waiter)];
    assert sends[..0] == [];
  }

  /** Every waiting op's and subscribe's waiter hears at once when a connection ends. */
  lemma EndCounts<W, V>(c: Client<W, V>)
    ensures var c' := EndWaiting(c);
      && OpWaiters(c') == OpWaiters(c) && SubWaiters(c') == SubWaiters(c)
      && AL.Held(c'.answers.waiting) == multiset{} && SL.Held(c'.subs) == multiset{}
  {
    hide AL.Told, SL.Held, HeardBy, Subscribes.End, SL.ToldBy;
    AL.UnknownTells(c.answers.waiting);
    AL.ToldConcat(c.told, AllUnknown(c.answers.waiting));
    var (subs, a) := Subscribes.End(c.subs);
    SL.AbandonTells(c.subs.(seen := map[], live := []));
    EndAbandons(c.subs);
    GiveUpHears(c, a);
  }

  lemma EndAbandons<V>(t: Replays<V>)
    ensures Subscribes.End(t) == Abandon(t.(seen := map[], live := []))
    ensures SL.Held(t.(seen := map[], live := [])) == SL.Held(t)
  {
  }

  lemma GiveUpHears<W, V>(c: Client<W, V>, a: Abandoned<V>)
    ensures HeardBy(GiveUp(c, a).heard) == HeardBy(c.heard) + SL.AbandonedWaiters(a)
  {
    hide HeardBy, Drops, Replies, SL.ToldBy;
    HeardConcat(c.heard + Drops(a.failed), Replies(a.refused));
    HeardConcat(c.heard, Drops(a.failed));
    RepliesHear(a.refused, a.failed);
  }

  lemma TakeOpsCounts<W, V>(c: Client<W, V>, rules: Rules, ops: seq<Op>)
    ensures var c' := TakeOps(c, rules, ops); OpWaiters(c') == OpWaiters(c) && SubWaiters(c') == SubWaiters(c)
  {
    hide HeardBy, SL.Held, SL.ToldBy, S.ApplyRemote, ReturnAll, OpWaiters, CatchUp, Fail;
    var (session, applied) := S.ApplyRemote(c.session, rules.swmr, ops);
    if applied {
      var (subs, done) := Receive(c.subs, ops);
      var c1 := c.(session := session, subs := subs);
      ReturnsCount(c1, rules, done);
      SameWaiters(c, c1);
      SL.CatchUpTells(c.subs.(seen := See(c.subs.seen, ops)), ZonesOf(ops));
      SeeHolds(c.subs, See(c.subs.seen, ops));
      Moved(SL.Held(subs), SL.ToldBy(done), SL.Held(c.subs), HeardBy(c.heard));
    } else {
      var (subs, failed) := Fail(c.subs, ops);
      SL.FailTells(c.subs, ops);
      HeardConcat(c.heard, Drops(failed));
      RepliesHear([], failed);
      SameWaiters(c, TakeOps(c, rules, ops));
      Moved(SL.Held(subs), multiset(failed), SL.Held(c.subs), HeardBy(c.heard));
    }
  }

  lemma SeeHolds<V>(t: Replays<V>, seen: Seen)
    ensures SL.Held(t.(seen := seen)) == SL.Held(t)
  {
  }

  /** What leaves the held is added to the told. */
  lemma Moved<X>(held': multiset<X>, told: multiset<X>, held: multiset<X>, before: multiset<X>)
    requires held' + told == held
    ensures held' + (before + told) == held + before
  {
  }

  lemma TakeHeadsCounts<W, V>(c: Client<W, V>, rules: Rules, ack: seq<StreamHeads>)
    requires SL.Settled(c.subs)
    ensures var c' := TakeHeads(c, rules, ack); OpWaiters(c') == OpWaiters(c) && SubWaiters(c') == SubWaiters(c)
  {
    hide HeardBy, SL.Held, SL.ToldBy, Ack, ReturnAll, OpWaiters, SL.Settled, SL.AbandonedWaiters;
    var (subs, acked) := Ack(c.subs, ack);
    var c1 := c.(subs := subs);
    SL.AckTells(c.subs, ack);
    SameWaiters(c, c1);
    match acked {
      case Success(done) =>
        ReturnsCount(c1, rules, AsSeq(done));
        Moved(SL.Held(subs), SL.ToldBy(AsSeq(done)), SL.Held(c.subs), HeardBy(c.heard));
      case Failure(a) =>
        GiveUpHears(c1, a);
        SameWaiters(c1, GiveUp(c1, a));
        Moved(SL.Held(subs), SL.AbandonedWaiters(a), SL.Held(c.subs), HeardBy(c.heard));
    }
  }

  lemma NotTakenCounts<W, V>(c: Client<W, V>)
    ensures var c' := NotTaken(c); OpWaiters(c') == OpWaiters(c) && SubWaiters(c') == SubWaiters(c)
  {
    hide HeardBy, SL.Held, Abandon, SL.AbandonedWaiters;
    var (subs, a) := Abandon(c.subs);
    SL.AbandonTells(c.subs);
    GiveUpHears(c.(subs := subs), a);
    Moved(SL.Held(subs), SL.AbandonedWaiters(a), SL.Held(c.subs), HeardBy(c.heard));
  }

  lemma TakeAnswerCounts<W, V>(c: Client<W, V>, rules: Rules, status: Status)
    ensures var c' := TakeAnswer(c, rules, status); OpWaiters(c') == OpWaiters(c) && SubWaiters(c') == SubWaiters(c)
  {
    hide HeardBy, SL.Held, SL.ToldBy, ReturnAll, AL.Held, AL.Told, TakeStatus, CatchUp, StartResending, OpWaiters;
    var (answers, session, answered) := TakeStatus(c.answers, c.session, status);
    if answered.Some? {
      var a := answered.value;
      var (subs, done) := Subscribes.Answer(c.subs, a.op, a.outcome);
      var c1 := c.(answers := answers, session := session, subs := subs);
      assert OpWaiters(Report(c1, a)) == OpWaiters(c) by { ReportCounts(c, c1, status, a); }
      ReturnsCount(Report(c1, a), rules, done);
      AnswerTells(c.subs, a.op, a.outcome);
      Moved(SL.Held(subs), SL.ToldBy(done), SL.Held(c.subs), HeardBy(c.heard));
    }
  }

  lemma AnswerTells<V>(t: Replays<V>, op: Op, outcome: Outcome)
    ensures var (t', done) := Subscribes.Answer(t, op, outcome); SL.Held(t') + SL.ToldBy(done) == SL.Held(t)
  {
    hide SL.Held, CatchUp;
    if outcome == Accepted {
      SL.CatchUpTells(t.(seen := SeeOne(t.seen, op)), [ZoneOf(op)]);
      SeeHolds(t, SeeOne(t.seen, op));
    }
  }

  lemma ReportCounts<W, V>(c: Client<W, V>, c1: Client<W, V>, status: Status, a: Answered<W>)
    requires c1.told == c.told && TakeStatus(c.answers, c.session, status) == (c1.answers, c1.session, Some(a))
    ensures OpWaiters(Report(c1, a)) == OpWaiters(c)
  {
    hide AL.Held, AL.Told, TakeStatus;
    AL.StatusTells(c.answers, c.session, status);
    assert AsSeq(Some(a)) == [a];
    AL.ToldConcat(c.told, [a]);
    Moved(AL.Held(c1.answers.waiting), AL.Told([a]), AL.Held(c.answers.waiting), AL.Told(c.told));
  }

  lemma TakeErrorCounts<W, V>(c: Client<W, V>, rules: Rules, status: Status)
    requires SL.Settled(c.subs)
    ensures var c' := TakeError(c, rules, status); OpWaiters(c') == OpWaiters(c) && SubWaiters(c') == SubWaiters(c)
  {
    hide HeardBy, SL.Held, SL.ToldBy, Reason, RefuseAfterAck, TakeAnswer, OpWaiters, SL.Settled, Replies;
    var (subs, reason) := Reason(c.subs, status);
    SL.ReasonTells(c.subs, status);
    if reason.Some? {
      HeardConcat(c.heard, [Replied(reason.value)]);
      ReplyHears(reason.value);
      assert AsSeq(reason) == [reason.value];
      ToldOne(reason.value);
      SameWaiters(c, TakeError(c, rules, status));
      Moved(SL.Held(subs), multiset{reason.value.waiter}, SL.Held(c.subs), HeardBy(c.heard));
    } else {
      var (subs, after) := RefuseAfterAck(c.subs, status);
      SL.RefusalTells(c.subs, status);
      SL.RefusalNamesAZone(c.subs, status);
      if after.zones != [] {
        HeardConcat(c.heard, Replies(after.subscribes));
        RepliesHear(after.subscribes, []);
        SameWaiters(c, TakeError(c, rules, status));
        Moved(SL.Held(subs), SL.ToldBy(after.subscribes), SL.Held(c.subs), HeardBy(c.heard));
      } else {
        assert c.(subs := subs) == c;
        TakeAnswerCounts(c, rules, status);
      }
    }
  }

  lemma NextCounts<W, V>(c: Client<W, V>, rules: Rules, e: Event<W, V>)
    requires SL.Settled(c.subs)
    ensures OpWaiters(Next(c, rules, e)) == OpWaiters(c) + GivenOp(c, rules, e)
    ensures SubWaiters(Next(c, rules, e)) == SubWaiters(c) + GivenSub(c, e)
  {
    hide OpWaiters, SubWaiters, Take, EndWaiting, AppendOp, Ship, Tick, Subscribe, SL.Settled, AL.Given, AL.One, Ships;
    match e
    case In(inbound) => TakeCounts(c, rules, inbound);
    case Connects => EndCounts(c); Connecting(EndWaiting(c), true);
    case Ends => EndCounts(c); Connecting(EndWaiting(c), false);
    case Appends(z, shape, payload, frontier, waiter) => AppendCounts(c, rules, z, shape, payload, frontier, waiter);
    case Sends(sends) => ShipCounts(c, rules, sends);
    case Asks(zone, asker) => AskCounts(c, zone, asker);
    case Sleeps(zone) => SleepCounts(c, zone);
    case Ticks(zone, timer) => TickCounts(c, rules, zone, timer);
  }

  lemma TakeCounts<W, V>(c: Client<W, V>, rules: Rules, inbound: Inbound)
    requires SL.Settled(c.subs)
    ensures var c' := Take(c, rules, inbound); OpWaiters(c') == OpWaiters(c) && SubWaiters(c') == SubWaiters(c)
  {
    hide OpWaiters, SubWaiters, TakeOps, TakeHeads, TakeError, NotTaken, SL.Settled;
    match inbound
    case OpsIn(ops) => TakeOpsCounts(c, rules, ops);
    case HeadsIn(ack) => TakeHeadsCounts(c, rules, ack);
    case ErrorIn(status) => TakeErrorCounts(c, rules, status);
    case Untakable => NotTakenCounts(c);
  }

  lemma AppendCounts<W, V>(c: Client<W, V>, rules: Rules, z: Zone, shape: Shape, payload: seq<byte>, frontier: seq<Head>, waiter: Option<W>)
    ensures var (c', made) := AppendOp(c, rules, z, shape, payload, frontier, waiter);
      OpWaiters(c') == OpWaiters(c) + (if made.Some? then AL.One(waiter) else multiset{}) && SubWaiters(c') == SubWaiters(c)
  {
    hide OpWaiters, SubWaiters, Hand, S.Append, AL.Given, AL.One;
    var (session, made) := S.Append(c.session, rules.hash, rules.swmr, z, shape, payload, frontier);
    if c.connected && made.Success? {
      var c1 := c.(session := session);
      HandCounts(c1, rules, [Sending(made.value, waiter)]);
      OneGiven(made.value, waiter);
      SameWaiters(c, c1);
      SameSubs(c, Hand(c1, rules, [Sending(made.value, waiter)]));
    }
  }

  lemma ShipCounts<W, V>(c: Client<W, V>, rules: Rules, sends: seq<Sending<W>>)
    ensures var c' := Ship(c, rules, sends);
      OpWaiters(c') == OpWaiters(c) + (if Ships(c, rules, sends) then AL.Given(sends) else multiset{}) && SubWaiters(c') == SubWaiters(c)
  {
    hide OpWaiters, SubWaiters, Hand, Ships, AL.Given;
    HandCounts(c, rules, sends);
    SameSubs(c, Hand(c, rules, sends));
  }

  lemma TickCounts<W, V>(c: Client<W, V>, rules: Rules, zone: Zone, timer: nat)
    ensures var c' := Tick(c, rules, zone, timer); OpWaiters(c') == OpWaiters(c) && SubWaiters(c') == SubWaiters(c)
  {
    hide OpWaiters, SubWaiters, Resend, UnplacedIn;
    var again := ResendTick(c.answers, zone, timer);
    if again.Some? {
      ResendCounts(c, rules, again.value);
      SameSubs(c, Resend(c, rules, again.value));
    }
  }

  lemma Connecting<W, V>(c: Client<W, V>, connected: bool)
    ensures OpWaiters(c.(connected := connected)) == OpWaiters(c) && SubWaiters(c.(connected := connected)) == SubWaiters(c)
  {
  }

  lemma SameSubs<W, V>(c: Client<W, V>, c': Client<W, V>)
    requires c'.subs == c.subs && c'.heard == c.heard
    ensures SubWaiters(c') == SubWaiters(c)
  {
  }

  lemma AskCounts<W, V>(c: Client<W, V>, zone: Zone, asker: V)
    ensures var c' := Subscribe(c, zone, asker);
      OpWaiters(c') == OpWaiters(c) && SubWaiters(c') == SubWaiters(c) + if c.connected then multiset{asker} else multiset{}
  {
    hide SL.Held, HeardBy;
    SL.AskHolds(c.subs, zone, asker);
    assert SL.Held(c.subs) + multiset{asker} + HeardBy(c.heard) == SL.Held(c.subs) + HeardBy(c.heard) + multiset{asker};
  }

  lemma SleepCounts<W, V>(c: Client<W, V>, zone: Zone)
    ensures var c' := c.(answers := NextResend(c.answers, zone).0);
      OpWaiters(c') == OpWaiters(c) && SubWaiters(c') == SubWaiters(c)
  {
  }
}
