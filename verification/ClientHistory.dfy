/** What a client's subscribes mean over its history: when `Accepted` is told, which zones are
    live, and when an ack is matched to its own subscribe. */
module ClientHistory {
  import opened Wrappers
  import opened Bytes
  import opened Text
  import opened Ops
  import opened Answers
  import opened Subscribes
  import opened Clients
  import opened ClientRuns
  import ClientLaws
  import S = Sessions
  import SL = SubscribeLaws

  // What the connection has seen.

  /** The op a status says the node holds. */
  function AnsweredOk<W, V>(c: Client<W, V>, status: Status): seq<Op> {
    match TakeStatus(c.answers, c.session, status).2
    case Some(a) => if a.outcome == Accepted then [a.op] else []
    case None => []
  }

  function SeenBy<W, V>(c: Client<W, V>, rules: Rules, e: Event<W, V>, seen: seq<Op>): seq<Op> {
    if e.Connects? || e.Ends? then []
    else if !e.In? || !c.connected then seen
    else
      match e.inbound
      case OpsIn(ops) => if S.ApplyRemote(c.session, rules.swmr, ops).1 then seen + ops else seen
      case ErrorIn(status) => seen + AnsweredOk(c, status)
      case _ => seen
  }

  /** The present connection's ops: those of frames taken, and those sent whose status was Ok. */
  function OpsSeen<W(==), V>(origin: string, bound: nat, rules: Rules, events: seq<Event<W, V>>): seq<Op> {
    if events == [] then []
    else
      var before := events[..|events| - 1];
      SeenBy(Run(origin, bound, rules, before), rules, events[|events| - 1], OpsSeen(origin, bound, rules, before))
  }

  /** For each head, an op of its origin at or past it is among `ops`. */
  ghost predicate Arrived(ops: seq<Op>, zone: Zone, heads: seq<Head>) {
    forall i | 0 <= i < |heads| :: HeadArrived(ops, zone, heads[i])
  }

  ghost predicate HeadArrived(ops: seq<Op>, zone: Zone, head: Head) {
    exists o | o in ops :: ZoneOf(o) == zone && o.origin == head.origin && o.no >= head.no
  }

  lemma {:induction false} SeeIsTheHighest(ops: seq<Op>, zone: Zone, origin: string)
    ensures var seen, at := See(map[], ops), (zone, origin);
      && (at in seen ==> exists o | o in ops :: ZoneOf(o) == zone && o.origin == origin && o.no == seen[at])
      && (forall o | o in ops && ZoneOf(o) == zone && o.origin == origin :: at in seen && o.no <= seen[at])
  {
    if ops != [] {
      var init, op := ops[..|ops| - 1], ops[|ops| - 1];
      assert ops == init + [op];
      SeeIsTheHighest(init, zone, origin);
      var seen, at := See(map[], init), (zone, origin);
      assert See(map[], ops) == SeeOne(seen, op);
      if at in seen {
        var o :| o in init && ZoneOf(o) == zone && o.origin == origin && o.no == seen[at];
        assert o in ops;
      }
      assert op in ops;
    }
  }

  lemma ReachedIsArrived(ops: seq<Op>, zone: Zone, heads: seq<Head>)
    ensures Reached(See(map[], ops), zone, heads) <==> Arrived(ops, zone, heads)
  {
    hide See, HeadArrived;
    forall i | 0 <= i < |heads|
      ensures HeadArrived(ops, zone, heads[i]) <==>
        (zone, heads[i].origin) in See(map[], ops) && See(map[], ops)[(zone, heads[i].origin)] >= heads[i].no
    {
      HeadIsSeen(ops, zone, heads[i]);
    }
  }

  lemma HeadIsSeen(ops: seq<Op>, zone: Zone, head: Head)
    ensures HeadArrived(ops, zone, head) <==> (zone, head.origin) in See(map[], ops) && See(map[], ops)[(zone, head.origin)] >= head.no
  {
    hide See;
    SeeIsTheHighest(ops, zone, head.origin);
  }

  lemma {:induction false} SeeMore(seen: Seen, a: seq<Op>, b: seq<Op>)
    ensures See(seen, a + b) == See(See(seen, a), b)
  {
    if b == [] {
      assert a + b == a;
    } else {
      SeeMore(seen, a, b[..|b| - 1]);
      assert (a + b)[..|a + b| - 1] == a + b[..|b| - 1];
    }
  }

  // What each step tells, sees and keeps live.

  lemma {:induction false} ReturnsTell<W, V>(c: Client<W, V>, rules: Rules, done: seq<Subscribed<V>>)
    ensures var c' := ReturnAll(c, rules, done);
      c'.subs == c.subs && c'.heard == c.heard + Replies(done)
  {
    hide Resend, UnplacedIn;
    if done == [] {
      assert c.heard + Replies(done) == c.heard;
    } else {
      ReturnsTell(c, rules, done[..|done| - 1]);
      var c1, z := ReturnAll(c, rules, done[..|done| - 1]), done[|done| - 1].zone;
      var c2 := c1.(session := S.Resume(c1.session, z));
      ClientLaws.ResendCounts(c2, rules, UnplacedIn(c2.answers, z));
      assert Replies(done) == Replies(done[..|done| - 1]) + [Replied(done[|done| - 1])];
    }
  }

  /** Only a subscribe whose replay is in is told so. */
  ghost predicate Honest<V>(h: Heard<V>, seen: Seen) {
    h.Replied? && h.subscribed.reply.Taken? ==> Reached(seen, h.subscribed.zone, h.subscribed.reply.heads)
  }

  ghost predicate AllHonest<V>(heard: seq<Heard<V>>, seen: Seen) {
    forall i | 0 <= i < |heard| :: Honest(heard[i], seen)
  }

  lemma {:induction false} CaughtUpAreIn<V>(catching: seq<Catching<V>>, seen: Seen, zones: seq<Zone>)
    ensures AllHonest(Replies(CaughtUp(catching, seen, zones)), seen)
  {
    hide Reached;
    if catching != [] {
      CaughtUpAreIn(catching[..|catching| - 1], seen, zones);
      var init, done := CaughtUp(catching[..|catching| - 1], seen, zones), CaughtUp(catching, seen, zones);
      forall i | 0 <= i < |done| ensures Honest(Replies(done)[i], seen) {
        if i < |init| {
          assert Replies(done)[i] == Replies(init)[i];
        }
      }
    }
  }

  lemma DeniedAreHonest<W, V>(t: Replays<V>, status: Status, ops: seq<Op>, seen: Seen)
    ensures AllHonest(Drops(Abandon(t).1.failed) + Replies(Abandon(t).1.refused), seen)
    ensures AllHonest(Replies(RefuseAfterAck(t, status).1.subscribes), seen)
    ensures AllHonest(Drops(Fail(t, ops).1), seen)
  {
    hide Reached, CatchingNamed, CatchingIn, FirstNamed;
  }

  /** One step: what it tells is honest of what the connection has then seen, which is what it had
      seen with the ops the step brings. */
  ghost predicate StepTells<W, V>(c: Client<W, V>, c': Client<W, V>, more: seq<Op>) {
    && c'.subs.seen == See(c.subs.seen, more)
    && c.heard <= c'.heard && AllHonest(c'.heard[|c.heard|..], c'.subs.seen)
  }

  lemma TakeOpsTells<W, V>(c: Client<W, V>, rules: Rules, ops: seq<Op>)
    ensures StepTells(c, TakeOps(c, rules, ops), if S.ApplyRemote(c.session, rules.swmr, ops).1 then ops else [])
  {
    hide AllHonest, ReturnAll, S.ApplyRemote, CaughtUp, CatchingIn, StillCatching;
    var (session, applied) := S.ApplyRemote(c.session, rules.swmr, ops);
    if applied {
      var (subs, done) := Receive(c.subs, ops);
      ReturnsTell(c.(session := session, subs := subs), rules, done);
      CaughtUpAreIn(c.subs.catching, subs.seen, ZonesOf(ops));
    } else {
      DeniedAreHonest<W, V>(c.subs, NoStatus(), ops, c.subs.seen);
    }
  }

  lemma TakeHeadsTells<W, V>(c: Client<W, V>, rules: Rules, ack: seq<StreamHeads>)
    ensures StepTells(c, TakeHeads(c, rules, ack), [])
  {
    hide AllHonest, ReturnAll, CaughtUp, StillCatching, Abandon, Reached;
    var t := c.subs.(live := Enliven(c.subs.live, ack));
    var (subs, acked) := Ack(c.subs, ack);
    match acked {
      case Success(done) =>
        ReturnsTell(c.(subs := subs), rules, AsSeq(done));
        if done.Some? {
          var more := t.catching + [Catching(t.unacked[0].zone, ack[0].heads, t.unacked[0].waiter)];
          CaughtUpAreIn(more, t.seen, [t.unacked[0].zone]);
          LastIsHonest(CaughtUp(more, t.seen, [t.unacked[0].zone]), t.seen);
        } else {
          NoneIsHonest<V>(t.seen);
          assert c.heard + [] == c.heard;
          assert Replies<V>(AsSeq(done)) == [];
        }
      case Failure(a) =>
        DeniedAreHonest<W, V>(t, NoStatus(), [], t.seen);
        assert subs.seen == t.seen by { AbandonSees(t); }
        assert c.heard + (Drops(a.failed) + Replies(a.refused)) == c.heard + Drops(a.failed) + Replies(a.refused);
    }
  }

  lemma AbandonSees<V>(t: Replays<V>)
    ensures Abandon(t).0.seen == t.seen && Abandon(t).0.live == t.live && Abandon(t).0.unacked == []
  {
  }

  lemma LastIsHonest<V>(done: seq<Subscribed<V>>, seen: Seen)
    requires done != [] && AllHonest(Replies(done), seen)
    ensures AllHonest(Replies(AsSeq(Some(done[|done| - 1]))), seen)
  {
    assert Honest(Replies(done)[|done| - 1], seen);
  }

  lemma NoneIsHonest<V>(seen: Seen)
    ensures AllHonest<V>([], seen)
  {
  }

  lemma TakeErrorTells<W, V>(c: Client<W, V>, rules: Rules, status: Status)
    ensures StepTells(c, TakeError(c, rules, status), AnsweredOk(c, status))
  {
    hide ReturnAll, CaughtUp, StillCatching, TakeStatus, TakeAnswer, ZonesNamed, CatchingNamed, Reached;
    var (subs, reason) := Reason(c.subs, status);
    var (subs', after) := RefuseAfterAck(c.subs, status);
    if status.corr.None? {
      assert AnsweredOk(c, status) == [] by { NoCorr(c, status); }
    }
    if reason.Some? {
      assert AllHonest([Replied(reason.value)], subs.seen);
    } else if after.zones != [] {
      hide AllHonest;
      DeniedAreHonest<W, V>(c.subs, status, [], c.subs.seen);
    } else {
      TakeAnswerTells(c.(subs := subs'), rules, status);
    }
  }

  lemma NoCorr<W, V>(c: Client<W, V>, status: Status)
    requires status.corr.None?
    ensures TakeStatus(c.answers, c.session, status).2 == None
  {
  }

  lemma TakeAnswerTells<W, V>(c: Client<W, V>, rules: Rules, status: Status)
    ensures StepTells(c, TakeAnswer(c, rules, status), AnsweredOk(c, status))
  {
    hide AllHonest, ReturnAll, CaughtUp, StillCatching, TakeStatus, StartResending;
    var (answers, session, answered) := TakeStatus(c.answers, c.session, status);
    if answered.Some? {
      var a := answered.value;
      var (subs, done) := Subscribes.Answer(c.subs, a.op, a.outcome);
      var c1 := Report(c.(answers := answers, session := session, subs := subs), a);
      ReturnsTell(c1, rules, done);
      if a.outcome == Accepted {
        CaughtUpAreIn(c.subs.catching, subs.seen, [ZoneOf(a.op)]);
        assert [a.op][..0] == [];
        assert See(c.subs.seen, [a.op]) == subs.seen;
      } else {
        assert Replies(done) == [];
        NoneIsHonest<V>(c.subs.seen);
      }
      assert (c.heard + Replies(done))[|c.heard|..] == Replies(done);
    } else {
      NoneIsHonest<V>(c.subs.seen);
      assert c.heard + [] == c.heard;
    }
  }

  lemma EndTells<W, V>(c: Client<W, V>)
    ensures var c' := EndWaiting(c);
      c'.subs == Fresh() && c.heard <= c'.heard && AllHonest(c'.heard[|c.heard|..], map[])
  {
    hide AllHonest;
    var t := c.subs.(seen := map[], live := []);
    var (subs, a) := Subscribes.End(c.subs);
    DeniedAreHonest<W, V>(t, NoStatus(), [], map[]);
    assert c.heard + (Drops(a.failed) + Replies(a.refused)) == c.heard + Drops(a.failed) + Replies(a.refused);
  }

  lemma NotTakenTells<W, V>(c: Client<W, V>)
    ensures StepTells(c, NotTaken(c), [])
  {
    hide AllHonest;
    var (subs, a) := Abandon(c.subs);
    DeniedAreHonest<W, V>(c.subs, NoStatus(), [], c.subs.seen);
    assert c.heard + (Drops(a.failed) + Replies(a.refused)) == c.heard + Drops(a.failed) + Replies(a.refused);
  }

  lemma SubsKept<W, V>(c: Client<W, V>, c': Client<W, V>)
    requires c'.subs.seen == c.subs.seen && c'.heard == c.heard
    ensures StepTells(c, c', [])
  {
  }

  lemma OthersKeepSubs<W, V>(c: Client<W, V>, rules: Rules, e: Event<W, V>)
    requires !e.Connects? && !e.Ends? && (!e.In? || !c.connected)
    ensures var c' := Next(c, rules, e);
      c'.heard == c.heard && c'.subs == if e.Asks? && c.connected then Ask(c.subs, e.zone, e.asker) else c.subs
  {
    hide Hand, Take, EndWaiting, Resend, S.Append, UnplacedIn, Takes;
    match e
    case Appends(z, shape, payload, frontier, waiter) =>
      var (session, made) := S.Append(c.session, rules.hash, rules.swmr, z, shape, payload, frontier);
      if c.connected && made.Success? {
        ClientLaws.HandCounts(c.(session := session), rules, [Sending(made.value, waiter)]);
      }
    case Sends(sends) => ClientLaws.HandCounts(c, rules, sends);
    case Ticks(zone, timer) =>
      var again := ResendTick(c.answers, zone, timer);
      if again.Some? { ClientLaws.ResendCounts(c, rules, again.value); }
    case _ =>
  }

  lemma NextTells<W, V>(c: Client<W, V>, rules: Rules, e: Event<W, V>, seen: seq<Op>)
    requires c.subs.seen == See(map[], seen)
    ensures var c' := Next(c, rules, e);
      && c'.subs.seen == See(map[], SeenBy(c, rules, e, seen))
      && c.heard <= c'.heard && AllHonest(c'.heard[|c.heard|..], c'.subs.seen)
  {
    hide AllHonest, TakeOps, TakeHeads, TakeError, NotTaken, S.ApplyRemote, EndWaiting, TakeStatus;
    if e.Connects? || e.Ends? {
      EndTells(c);
    } else if e.In? && c.connected {
      match e.inbound {
        case OpsIn(ops) =>
          TakeOpsTells(c, rules, ops);
          SeeMore(map[], seen, ops);
        case HeadsIn(ack) => TakeHeadsTells(c, rules, ack);
        case ErrorIn(status) =>
          TakeErrorTells(c, rules, status);
          SeeMore(map[], seen, AnsweredOk(c, status));
        case Untakable => NotTakenTells(c);
      }
    } else {
      OthersKeepSubs(c, rules, e);
      SubsKept(c, Next(c, rules, e));
    }
  }

  lemma {:induction false} RunSees<W, V>(origin: string, bound: nat, rules: Rules, events: seq<Event<W, V>>)
    ensures Run(origin, bound, rules, events).subs.seen == See(map[], OpsSeen(origin, bound, rules, events))
  {
    hide Next, SeenBy;
    if events != [] {
      var before := events[..|events| - 1];
      RunSees(origin, bound, rules, before);
      NextTells(Run(origin, bound, rules, before), rules, events[|events| - 1], OpsSeen(origin, bound, rules, before));
    }
  }

  /** A subscribe is told `Accepted` exactly when `OpsSeen` reaches every head of its ack: what a step
      tells has been reached by then, and what still waits after it has not. */
  lemma AcceptedWhenReached<W, V>(origin: string, bound: nat, rules: Rules, events: seq<Event<W, V>>, e: Event<W, V>)
    ensures var c, c' := Run(origin, bound, rules, events), Run(origin, bound, rules, events + [e]);
      var seen := OpsSeen(origin, bound, rules, events + [e]);
      && c.heard <= c'.heard
      && (forall i | |c.heard| <= i < |c'.heard| && c'.heard[i].Replied? && c'.heard[i].subscribed.reply.Taken? ::
            Arrived(seen, c'.heard[i].subscribed.zone, c'.heard[i].subscribed.reply.heads))
      && (forall i | 0 <= i < |c'.subs.catching| :: !Arrived(seen, c'.subs.catching[i].zone, c'.subs.catching[i].heads))
  {
    hide Next, See, Reached, Arrived, SeenBy;
    var all := events + [e];
    assert all[..|all| - 1] == events;
    var c, c', seen := Run(origin, bound, rules, events), Run(origin, bound, rules, all), OpsSeen(origin, bound, rules, all);
    RunSees(origin, bound, rules, events);
    RunKeeps(origin, bound, rules, all);
    NextTells(c, rules, e, OpsSeen(origin, bound, rules, events));
    RunSees(origin, bound, rules, all);
    forall i | |c.heard| <= i < |c'.heard| && c'.heard[i].Replied? && c'.heard[i].subscribed.reply.Taken?
      ensures Arrived(seen, c'.heard[i].subscribed.zone, c'.heard[i].subscribed.reply.heads)
    {
      assert c'.heard[|c.heard|..][i - |c.heard|] == c'.heard[i];
      assert Honest(c'.heard[i], c'.subs.seen);
      ReachedIsArrived(seen, c'.heard[i].subscribed.zone, c'.heard[i].subscribed.reply.heads);
    }
    forall i | 0 <= i < |c'.subs.catching| ensures !Arrived(seen, c'.subs.catching[i].zone, c'.subs.catching[i].heads) {
      assert SL.Waits(c'.subs, c'.subs.catching[i]);
      ReachedIsArrived(seen, c'.subs.catching[i].zone, c'.subs.catching[i].heads);
    }
  }

  // Live zones.

  predicate AcksZone<W, V>(e: Event<W, V>, z: Zone) {
    e.In? && e.inbound.HeadsIn? && e.inbound.ack != [] && e.inbound.ack[0].zone == z
  }

  /** The connection ends, or begins again, or an `Error` refuses the zone after its ack. */
  predicate Cuts<W, V>(c: Client<W, V>, e: Event<W, V>, z: Zone) {
    || e.Connects? || e.Ends?
    || (e.In? && e.inbound.ErrorIn? && c.connected && AfterAck(c.subs, e.inbound.status) && Names(e.inbound.status, z))
  }

  lemma LiveStep<W, V>(c: Client<W, V>, rules: Rules, e: Event<W, V>, z: Zone)
    requires SL.Settled(c.subs)
    ensures z in Next(c, rules, e).subs.live <==> !Cuts(c, e, z) && (z in c.subs.live || (c.connected && AcksZone(e, z)))
  {
    hide EndWaiting, ReturnAll, S.ApplyRemote, TakeError, SL.Settled, CaughtUp, StillCatching;
    if e.Connects? || e.Ends? {
      EndTells(c);
    } else if e.In? && c.connected {
      match e.inbound {
        case OpsIn(ops) =>
          var (session, applied) := S.ApplyRemote(c.session, rules.swmr, ops);
          var (subs, done) := Receive(c.subs, ops);
          if applied { ReturnsTell(c.(session := session, subs := subs), rules, done); }
        case HeadsIn(ack) =>
          var (subs, acked) := Ack(c.subs, ack);
          if acked.Success? { ReturnsTell(c.(subs := subs), rules, AsSeq(acked.value)); }
        case ErrorIn(status) => ErrorLives(c, rules, status, z);
        case Untakable =>
      }
    } else {
      OthersKeepSubs(c, rules, e);
    }
  }

  lemma ErrorLives<W, V>(c: Client<W, V>, rules: Rules, status: Status, z: Zone)
    requires SL.Settled(c.subs)
    ensures z in TakeError(c, rules, status).subs.live <==> z in c.subs.live && !(AfterAck(c.subs, status) && Names(status, z))
  {
    hide ReturnAll, SL.Settled, CaughtUp, StillCatching, TakeStatus, RefuseAfterAck, FirstNamed, Names;
    SL.RefusalNamesAZone(c.subs, status);
    var (subs, after) := RefuseAfterAck(c.subs, status);
    var (_, reason) := Reason(c.subs, status);
    if !AfterAck(c.subs, status) {
      assert after.zones == [] && subs == c.subs by { NoneAfterAck(c.subs, status); }
    }
    if reason.None? && after.zones == [] {
      AnswerKeepsLive(c, rules, status);
    }
  }

  lemma NoneAfterAck<V>(t: Replays<V>, status: Status)
    requires !AfterAck(t, status)
    ensures RefuseAfterAck(t, status) == (t, RefusedAfterAck([], []))
  {
  }

  lemma AnswerKeepsLive<W, V>(c: Client<W, V>, rules: Rules, status: Status)
    ensures var c' := TakeAnswer(c, rules, status); c'.subs.live == c.subs.live && c'.subs.unacked == c.subs.unacked
  {
    hide ReturnAll, CaughtUp, StillCatching, TakeStatus, StartResending;
    var (answers, session, answered) := TakeStatus(c.answers, c.session, status);
    if answered.Some? {
      var a := answered.value;
      var (subs, done) := Subscribes.Answer(c.subs, a.op, a.outcome);
      ReturnsTell(Report(c.(answers := answers, session := session, subs := subs), a), rules, done);
    }
  }

  /** An ack named the zone on this connection, and nothing since has cut it. */
  ghost predicate AckedSince<W, V>(origin: string, bound: nat, rules: Rules, events: seq<Event<W, V>>, z: Zone) {
    exists i | 0 <= i < |events| :: AcksZone(events[i], z) && AckedAt(origin, bound, rules, events, z, i)
  }

  ghost predicate AckedAt<W, V>(origin: string, bound: nat, rules: Rules, events: seq<Event<W, V>>, z: Zone, i: nat)
    requires i < |events|
  {
    && Run(origin, bound, rules, events[..i]).connected
    && forall j | i < j < |events| :: !Cuts(Run(origin, bound, rules, events[..j]), events[j], z)
  }

  /** A zone is live exactly when an ack on this connection named it and nothing has refused it
      since. */
  lemma {:induction false} LiveMeansAckedSince<W, V>(origin: string, bound: nat, rules: Rules, events: seq<Event<W, V>>, z: Zone)
    ensures z in Run(origin, bound, rules, events).subs.live <==> AckedSince(origin, bound, rules, events, z)
  {
    hide Next, Cuts, AcksZone, Run;
    if events == [] {
      NewLives<W, V>(origin, bound, rules, z);
    } else {
      var n := |events| - 1;
      var before, e := events[..n], events[n];
      var c := Run(origin, bound, rules, before);
      LiveMeansAckedSince(origin, bound, rules, before, z);
      RunKeeps(origin, bound, rules, before);
      RunIs(origin, bound, rules, events);
      LiveStep(c, rules, e, z);
      forall i | 0 <= i < n && AcksZone(events[i], z)
        ensures AckedAt(origin, bound, rules, events, z, i) <==> AckedAt(origin, bound, rules, before, z, i) && !Cuts(c, e, z)
      {
        assert before[i] == events[i];
        AckedOneMore(origin, bound, rules, events, z, i);
      }
      if AckedSince(origin, bound, rules, before, z) && !Cuts(c, e, z) {
        var i :| 0 <= i < n && AcksZone(before[i], z) && AckedAt(origin, bound, rules, before, z, i);
        assert AcksZone(events[i], z) && AckedAt(origin, bound, rules, events, z, i);
      }
      if AcksZone(e, z) {
        NamingCutsNot(c, e, z);
        assert AckedAt(origin, bound, rules, events, z, n) <==> c.connected;
      }
      if AckedSince(origin, bound, rules, events, z) {
        var i :| 0 <= i < |events| && AcksZone(events[i], z) && AckedAt(origin, bound, rules, events, z, i);
        if i < n {
          assert AcksZone(before[i], z) && AckedAt(origin, bound, rules, before, z, i);
        }
      }
    }
  }

  lemma NamingCutsNot<W, V>(c: Client<W, V>, e: Event<W, V>, z: Zone)
    requires AcksZone(e, z)
    ensures !Cuts(c, e, z)
  {
  }

  lemma NewLives<W, V>(origin: string, bound: nat, rules: Rules, z: Zone)
    ensures z !in Run<W, V>(origin, bound, rules, []).subs.live
  {
  }

  lemma RunIs<W, V>(origin: string, bound: nat, rules: Rules, events: seq<Event<W, V>>)
    requires events != []
    ensures Run(origin, bound, rules, events) == Next(Run(origin, bound, rules, events[..|events| - 1]), rules, events[|events| - 1])
  {
    hide Next;
  }

  lemma AckedOneMore<W, V>(origin: string, bound: nat, rules: Rules, events: seq<Event<W, V>>, z: Zone, i: nat)
    requires i < |events| - 1
    ensures var n := |events| - 1;
      AckedAt(origin, bound, rules, events, z, i)
      <==> AckedAt(origin, bound, rules, events[..n], z, i) && !Cuts(Run(origin, bound, rules, events[..n]), events[n], z)
  {
    hide Next, Cuts, Run;
    var n := |events| - 1;
    var before := events[..n];
    assert before[..i] == events[..i];
    forall j | i < j < n
      ensures before[..j] == events[..j] && before[j] == events[j]
    {
    }
  }

  // Acks and their subscribes.

  /** The subscribes asked on the present connection, in order. */
  function AskedOn<W(==), V>(origin: string, bound: nat, rules: Rules, events: seq<Event<W, V>>): seq<Asked<V>> {
    if events == [] then []
    else
      var before, e := events[..|events| - 1], events[|events| - 1];
      if e.Connects? || e.Ends? then []
      else if e.Asks? && Run(origin, bound, rules, before).connected then AskedOn(origin, bound, rules, before) + [Asked(e.zone, e.asker)]
      else AskedOn(origin, bound, rules, before)
  }

  /** How many acks the present connection has brought. */
  function AcksOn<W, V>(events: seq<Event<W, V>>): nat {
    if events == [] then 0
    else
      var before, e := events[..|events| - 1], events[|events| - 1];
      if e.Connects? || e.Ends? then 0
      else if e.In? && e.inbound.HeadsIn? then AcksOn(before) + 1
      else AcksOn(before)
  }

  /** An ack of the `k`th subscribe asked: it names its zone, or none. */
  predicate AcksThe<V>(ack: seq<StreamHeads>, asked: seq<Asked<V>>, k: nat) {
    k < |asked| && (ack == [] || ack[0].zone == asked[k].zone)
  }

  /** The node acks subscribes in the order sent, each once, naming its zone or none, while
      connected. */
  predicate AcksInOrder<W(==), V>(origin: string, bound: nat, rules: Rules, events: seq<Event<W, V>>) {
    events == []
    || var before, e := events[..|events| - 1], events[|events| - 1];
       && AcksInOrder(origin, bound, rules, before)
       && (e.In? && e.inbound.HeadsIn? ==>
            Run(origin, bound, rules, before).connected && AcksThe(e.inbound.ack, AskedOn(origin, bound, rules, before), AcksOn(before)))
  }

  function UnackedAfter<W, V>(c: Client<W, V>, e: Event<W, V>): seq<Asked<V>> {
    var u := c.subs.unacked;
    if e.Connects? || e.Ends? then []
    else if !c.connected then u
    else if e.Asks? then u + [Asked(e.zone, e.asker)]
    else if !e.In? then u
    else
      match e.inbound
      case HeadsIn(ack) => if u == [] || (ack != [] && ack[0].zone != u[0].zone) then [] else u[1..]
      case Untakable => []
      case _ => u
  }

  lemma UnackedStep<W, V>(c: Client<W, V>, rules: Rules, e: Event<W, V>)
    ensures Next(c, rules, e).subs.unacked == UnackedAfter(c, e)
  {
    hide EndWaiting, ReturnAll, S.ApplyRemote, TakeAnswer, CaughtUp, StillCatching;
    if e.Connects? || e.Ends? {
      EndTells(c);
    } else if e.In? && c.connected {
      match e.inbound {
        case OpsIn(ops) =>
          var (session, applied) := S.ApplyRemote(c.session, rules.swmr, ops);
          var (subs, done) := Receive(c.subs, ops);
          if applied { ReturnsTell(c.(session := session, subs := subs), rules, done); }
        case HeadsIn(ack) =>
          var (subs, acked) := Ack(c.subs, ack);
          if acked.Success? { ReturnsTell(c.(subs := subs), rules, AsSeq(acked.value)); }
        case ErrorIn(status) =>
          var (subs, after) := RefuseAfterAck(c.subs, status);
          AnswerKeepsLive(c.(subs := subs), rules, status);
        case Untakable =>
      }
    } else {
      OthersKeepSubs(c, rules, e);
    }
  }

  /** In every run, the subscribes not yet acked are the last ones asked. */
  lemma {:induction false} UnackedAreTheLastAsked<W, V>(origin: string, bound: nat, rules: Rules, events: seq<Event<W, V>>)
    ensures var unacked, asked := Run(origin, bound, rules, events).subs.unacked, AskedOn(origin, bound, rules, events);
      |unacked| <= |asked| && unacked == asked[|asked| - |unacked|..]
  {
    hide Next;
    if events != [] {
      var before, e := events[..|events| - 1], events[|events| - 1];
      UnackedAreTheLastAsked(origin, bound, rules, before);
      UnackedStep(Run(origin, bound, rules, before), rules, e);
    }
  }

  predicate Untaken<W, V>(e: Event<W, V>) {
    e.In? && e.inbound.Untakable?
  }

  /** The node has acked every subscribe asked on the connection. */
  predicate Drained<W(==), V>(origin: string, bound: nat, rules: Rules, events: seq<Event<W, V>>) {
    AcksOn(events) == |AskedOn(origin, bound, rules, events)|
  }

  /** Since every frame that was not taken, or when it came, the node has had every subscribe asked
      acked. A connection begins so. */
  ghost predicate InPace<W, V>(origin: string, bound: nat, rules: Rules, events: seq<Event<W, V>>) {
    forall j | 0 <= j < |events| && Untaken(events[j]) :: DrainedSince(origin, bound, rules, events, j)
  }

  ghost predicate DrainedSince<W, V>(origin: string, bound: nat, rules: Rules, events: seq<Event<W, V>>, j: nat) {
    exists i | j <= i <= |events| :: Drained(origin, bound, rules, events[..i])
  }

  /** A frame was not taken, and since it some subscribe has always been waiting for its ack. */
  function Stale<W(==), V>(origin: string, bound: nat, rules: Rules, events: seq<Event<W, V>>): bool {
    events != [] && !Drained(origin, bound, rules, events)
    && (Untaken(events[|events| - 1]) || Stale(origin, bound, rules, events[..|events| - 1]))
  }

  lemma {:induction false} StaleIs<W, V>(origin: string, bound: nat, rules: Rules, events: seq<Event<W, V>>)
    ensures InPace(origin, bound, rules, events) <==> !Stale(origin, bound, rules, events)
  {
    hide Run, AskedOn, AcksOn, Drained;
    if events != [] {
      var n := |events| - 1;
      var before := events[..n];
      StaleIs(origin, bound, rules, before);
      assert events[..|events|] == events;
      if Drained(origin, bound, rules, events) {
        forall j | 0 <= j < |events| ensures DrainedSince(origin, bound, rules, events, j) {
          assert Drained(origin, bound, rules, events[..|events|]);
        }
      } else {
        forall j | 0 <= j < n
          ensures DrainedSince(origin, bound, rules, events, j) <==> DrainedSince(origin, bound, rules, before, j)
        {
          NotYetDrained(origin, bound, rules, events, j);
        }
        if Untaken(events[n]) {
          UntakenDrainsNone(origin, bound, rules, events);
        }
      }
    }
  }

  lemma NotYetDrained<W, V>(origin: string, bound: nat, rules: Rules, events: seq<Event<W, V>>, j: nat)
    requires j < |events| - 1 && !Drained(origin, bound, rules, events)
    ensures DrainedSince(origin, bound, rules, events, j) <==> DrainedSince(origin, bound, rules, events[..|events| - 1], j)
  {
    hide Drained;
    var before := events[..|events| - 1];
    assert events[..|events|] == events;
    forall i | 0 <= i <= |before| ensures before[..i] == events[..i] {
    }
    if DrainedSince(origin, bound, rules, before, j) {
      var i :| j <= i <= |before| && Drained(origin, bound, rules, before[..i]);
      assert Drained(origin, bound, rules, events[..i]);
    }
  }

  lemma UntakenDrainsNone<W, V>(origin: string, bound: nat, rules: Rules, events: seq<Event<W, V>>)
    requires events != [] && !Drained(origin, bound, rules, events) && Untaken(events[|events| - 1])
    ensures !DrainedSince(origin, bound, rules, events, |events| - 1)
  {
    hide Run;
    assert events[..|events|] == events;
    assert !Drained(origin, bound, rules, events[..|events| - 1]);
  }

  lemma ConnectedStep<W, V>(c: Client<W, V>, rules: Rules, e: Event<W, V>)
    requires Good(c, rules)
    ensures Next(c, rules, e).connected == if e.Connects? then true else if e.Ends? then false else c.connected
  {
    hide Good, Take, EndWaiting, S.Append, OfferAll, Resend, Takes;
    match e
    case In(inbound) => if c.connected { TakeKeeps(c, rules, inbound); }
    case Ticks(zone, timer) =>
      var again := ResendTick(c.answers, zone, timer);
      if again.Some? { ResendKeeps(c, rules, again.value); }
    case _ =>
  }

  /** In every run against a node that acks in the order asked, the acks and the subscribes not acked
      are no more than those asked; and they are all of them exactly while it is in pace. */
  lemma {:induction false} AcksBehind<W, V>(origin: string, bound: nat, rules: Rules, events: seq<Event<W, V>>)
    requires AcksInOrder(origin, bound, rules, events)
    ensures var c, asked := Run(origin, bound, rules, events), AskedOn(origin, bound, rules, events);
      && AcksOn(events) + |c.subs.unacked| <= |asked|
      && (AcksOn(events) + |c.subs.unacked| == |asked| <==> !Stale(origin, bound, rules, events))
      && (!c.connected ==> asked == [] && AcksOn(events) == 0)
  {
    hide Next, Run, AskedOn, AcksOn, AcksInOrder, Drained, Good, UnackedAfter;
    if events == [] {
      NoneAsked<W, V>(origin, bound, rules);
    } else {
      var before, e := events[..|events| - 1], events[|events| - 1];
      var c := Run(origin, bound, rules, before);
      assert before + [e] == events;
      OneMore(origin, bound, rules, before, e);
      AcksBehind(origin, bound, rules, before);
      RunKeeps(origin, bound, rules, before);
      ConnectedStep(c, rules, e);
      UnackedStep(c, rules, e);
      UnackedAreTheLastAsked(origin, bound, rules, before);
      PaceStep(c, e, AskedOn(origin, bound, rules, before), AcksOn(before));
      DrainedIs(origin, bound, rules, events);
    }
  }

  lemma NoneAsked<W, V>(origin: string, bound: nat, rules: Rules)
    ensures var c := Run<W, V>(origin, bound, rules, []); c.subs.unacked == [] && !c.connected
    ensures AskedOn<W, V>(origin, bound, rules, []) == [] && AcksOn<W, V>([]) == 0
  {
  }

  lemma DrainedIs<W, V>(origin: string, bound: nat, rules: Rules, events: seq<Event<W, V>>)
    ensures Drained(origin, bound, rules, events) <==> AcksOn(events) == |AskedOn(origin, bound, rules, events)|
  {
  }

  /** One step of a node acking in order keeps its acks and the subscribes not acked within those
      asked, and short of them only by a frame not taken since it last caught up. */
  lemma PaceStep<W, V>(c: Client<W, V>, e: Event<W, V>, asked: seq<Asked<V>>, acks: nat)
    requires var u := c.subs.unacked;
      acks + |u| <= |asked| && u == asked[|asked| - |u|..] && (!c.connected ==> asked == [] && acks == 0)
    requires e.In? && e.inbound.HeadsIn? ==> c.connected && AcksThe(e.inbound.ack, asked, acks)
    ensures var u, u', asked', acks' := c.subs.unacked, UnackedAfter(c, e),
        (if e.Connects? || e.Ends? then [] else asked + if e.Asks? && c.connected then [Asked(e.zone, e.asker)] else []),
        (if e.Connects? || e.Ends? then 0 else if e.In? && e.inbound.HeadsIn? then acks + 1 else acks);
      && acks' + |u'| <= |asked'|
      && (acks' + |u'| == |asked'| <==> acks' == |asked'| || (acks + |u| == |asked| && !Untaken(e)))
      && (e.Ends? || (!c.connected && !e.Connects?) ==> asked' == [] && acks' == 0)
  {
  }

  /** Against such a node, the subscribes not acked are those asked after the acks there have been
      exactly while it is in pace. */
  lemma AcksKeepPace<W, V>(origin: string, bound: nat, rules: Rules, events: seq<Event<W, V>>)
    requires AcksInOrder(origin, bound, rules, events)
    ensures var unacked, asked := Run(origin, bound, rules, events).subs.unacked, AskedOn(origin, bound, rules, events);
      && AcksOn(events) + |unacked| <= |asked|
      && (unacked == asked[AcksOn(events)..] <==> InPace(origin, bound, rules, events))
  {
    hide Run, AskedOn, AcksOn, AcksInOrder;
    AcksBehind(origin, bound, rules, events);
    UnackedAreTheLastAsked(origin, bound, rules, events);
    StaleIs(origin, bound, rules, events);
  }

  /** So the next ack in its turn is the oldest unacked subscribe's own, and all after it wait in
      theirs, exactly while the node is in pace; and it then abandons none. */
  lemma AckFindsItsOwn<W, V>(origin: string, bound: nat, rules: Rules, events: seq<Event<W, V>>, ack: seq<StreamHeads>)
    requires AcksInOrder(origin, bound, rules, events + [In(HeadsIn(ack))])
    ensures var c, k := Run(origin, bound, rules, events), AcksOn(events);
      var asked := AskedOn(origin, bound, rules, events);
      && k < |asked|
      && (c.subs.unacked == asked[k..] <==> InPace(origin, bound, rules, events))
      && (InPace(origin, bound, rules, events) ==>
            && c.subs.unacked != [] && c.subs.unacked[0] == asked[k]
            && Ack(c.subs, ack).1.Success? && Ack(c.subs, ack).0.unacked == asked[k + 1..])
  {
    hide Run, AskedOn, AcksOn, CaughtUp, StillCatching, InPace;
    var all := events + [In(HeadsIn(ack))];
    assert all[..|all| - 1] == events;
    AcksKeepPace(origin, bound, rules, events);
  }

  /** In pace or not, an ack in its turn meets the subscribe at the head of those not acked, never one
      asked before its own; that is its own exactly while the node is in pace; and it abandons the
      subscribes waiting exactly when it names a zone, and the one it meets is not of its own's. */
  lemma AckTakenBy<W, V>(origin: string, bound: nat, rules: Rules, events: seq<Event<W, V>>, ack: seq<StreamHeads>)
    requires AcksInOrder(origin, bound, rules, events + [In(HeadsIn(ack))])
    requires Run(origin, bound, rules, events).subs.unacked != []
    ensures var subs, k := Run(origin, bound, rules, events).subs, AcksOn(events);
      var asked := AskedOn(origin, bound, rules, events);
      var at := |asked| - |subs.unacked|;
      && k <= at < |asked| && subs.unacked[0] == asked[at]
      && (at == k <==> InPace(origin, bound, rules, events))
      && (Ack(subs, ack).1.Failure? <==> ack != [] && asked[at].zone != asked[k].zone)
      && Ack(subs, ack).0.unacked == if Ack(subs, ack).1.Failure? then [] else asked[at + 1..]
  {
    hide Run, AskedOn, AcksOn, CaughtUp, StillCatching;
    var all := events + [In(HeadsIn(ack))];
    assert all[..|all| - 1] == events;
    UnackedAreTheLastAsked(origin, bound, rules, events);
    AcksBehind(origin, bound, rules, events);
    StaleIs(origin, bound, rules, events);
  }

  /** Out of pace: the ack of a subscribe that a frame not taken abandoned is taken by the next one
      asked, of another zone, which it abandons. */
  lemma LateAckAbandons<W, V>(origin: string, bound: nat, rules: Rules, za: Zone, zb: Zone, a: V, b: V)
    requires za != zb
    ensures var events: seq<Event<W, V>> := [Connects, Asks(za, a), In(Untakable), Asks(zb, b)];
      var ack := [StreamHeads(za, [])];
      && AcksInOrder(origin, bound, rules, events + [In(HeadsIn(ack))])
      && Ack(Run(origin, bound, rules, events).subs, ack).1.Failure?
  {
    hide Next, CaughtUp, StillCatching, Run, AskedOn, AcksOn, AcksInOrder;
    var e2: Event<W, V> := Asks(za, a);
    var e3: Event<W, V> := In(Untakable);
    var e4: Event<W, V> := Asks(zb, b);
    var s1: seq<Event<W, V>> := [Connects];
    var s2 := s1 + [e2];
    var s3 := s2 + [e3];
    var s4 := s3 + [e4];
    var ack := [StreamHeads(za, [])];
    assert s4 == [Connects, Asks(za, a), In(Untakable), Asks(zb, b)];
    OneMore<W, V>(origin, bound, rules, [], Connects);
    assert [] + s1 == s1;
    OneMore(origin, bound, rules, s1, e2);
    OneMore(origin, bound, rules, s2, e3);
    OneMore(origin, bound, rules, s3, e4);
    OneMore(origin, bound, rules, s4, In(HeadsIn(ack)));
    assert Run(origin, bound, rules, s1).connected && Run(origin, bound, rules, s1).subs.unacked == [] by {
      ConnectStep(Run<W, V>(origin, bound, rules, []), rules);
    }
    StaysConnected(Run(origin, bound, rules, s1), rules, za, a);
    StaysConnected(Run(origin, bound, rules, s2), rules, za, a);
    StaysConnected(Run(origin, bound, rules, s3), rules, zb, b);
    UnackedStep(Run(origin, bound, rules, s2), rules, e3);
    UnackedStep(Run(origin, bound, rules, s3), rules, e4);
    assert Run(origin, bound, rules, s4).subs.unacked == [Asked(zb, b)];
    assert AskedOn(origin, bound, rules, s4)[0] == Asked(za, a);
  }

  /** That every subscribe asked before the frame not taken has been acked is not enough: its ack may
      itself have been taken by a later one of its zone, and every ack after is one behind. */
  lemma AckedIsNotEnough<W, V>(origin: string, bound: nat, rules: Rules, z: Zone, a: V, b: V, c: V)
    ensures var ack := [StreamHeads(z, [])];
      var events: seq<Event<W, V>> := [Connects, Asks(z, a), In(Untakable), Asks(z, b), Asks(z, c), In(HeadsIn(ack))];
      && AcksInOrder(origin, bound, rules, events + [In(HeadsIn(ack))]) && AcksOn(events) == |AskedOn(origin, bound, rules, events[..2])| == 1
      && AskedOn(origin, bound, rules, events) == [Asked(z, a), Asked(z, b), Asked(z, c)]
      && Run(origin, bound, rules, events).subs.unacked == [Asked(z, c)]
  {
    hide Next, CaughtUp, StillCatching, Run, AskedOn, AcksOn, AcksInOrder;
    var ack := [StreamHeads(z, [])];
    var e3: Event<W, V> := In(Untakable);
    var e6: Event<W, V> := In(HeadsIn(ack));
    var s1: seq<Event<W, V>> := [Connects];
    var s2 := s1 + [Asks(z, a)];
    var s3 := s2 + [e3];
    var s4 := s3 + [Asks(z, b)];
    var s5 := s4 + [Asks(z, c)];
    var s6 := s5 + [e6];
    assert s6 == [Connects, Asks(z, a), In(Untakable), Asks(z, b), Asks(z, c), In(HeadsIn(ack))] && s6[..2] == s2;
    OneMore<W, V>(origin, bound, rules, [], Connects);
    assert [] + s1 == s1;
    OneMore(origin, bound, rules, s1, Asks(z, a));
    OneMore(origin, bound, rules, s2, e3);
    OneMore(origin, bound, rules, s3, Asks(z, b));
    OneMore(origin, bound, rules, s4, Asks(z, c));
    OneMore(origin, bound, rules, s5, e6);
    OneMore(origin, bound, rules, s6, e6);
    assert Run(origin, bound, rules, s1).connected by {
      ConnectStep(Run<W, V>(origin, bound, rules, []), rules);
    }
    StaysConnected(Run(origin, bound, rules, s1), rules, z, a);
    StaysConnected(Run(origin, bound, rules, s2), rules, z, a);
    StaysConnected(Run(origin, bound, rules, s3), rules, z, b);
    StaysConnected(Run(origin, bound, rules, s4), rules, z, c);
    RunKeeps(origin, bound, rules, s5);
    hide Good;
    ConnectedStep(Run(origin, bound, rules, s5), rules, e6);
    UnackedStep(Run(origin, bound, rules, s2), rules, e3);
    UnackedStep(Run(origin, bound, rules, s3), rules, s4[3]);
    UnackedStep(Run(origin, bound, rules, s4), rules, s5[4]);
    UnackedStep(Run(origin, bound, rules, s5), rules, e6);
  }

  lemma OneMore<W, V>(origin: string, bound: nat, rules: Rules, events: seq<Event<W, V>>, e: Event<W, V>)
    ensures var all, c := events + [e], Run(origin, bound, rules, events);
      && Run(origin, bound, rules, all) == Next(c, rules, e)
      && AskedOn(origin, bound, rules, all) ==
           (if e.Connects? || e.Ends? then []
            else AskedOn(origin, bound, rules, events) + if e.Asks? && c.connected then [Asked(e.zone, e.asker)] else [])
      && AcksOn(all) == (if e.Connects? || e.Ends? then 0 else if e.In? && e.inbound.HeadsIn? then AcksOn(events) + 1 else AcksOn(events))
      && (AcksInOrder(origin, bound, rules, all) <==>
           && AcksInOrder(origin, bound, rules, events)
           && (e.In? && e.inbound.HeadsIn? ==> c.connected && AcksThe(e.inbound.ack, AskedOn(origin, bound, rules, events), AcksOn(events))))
      && AskedOn<W, V>(origin, bound, rules, []) == [] && AcksOn<W, V>([]) == 0 && AcksInOrder<W, V>(origin, bound, rules, [])
  {
    hide Next;
    var all := events + [e];
    assert all[..|all| - 1] == events;
  }

  lemma ConnectStep<W, V>(c: Client<W, V>, rules: Rules)
    ensures Next(c, rules, Connects).connected && Next(c, rules, Connects).subs.unacked == []
  {
  }

  lemma StaysConnected<W, V>(c: Client<W, V>, rules: Rules, zone: Zone, asker: V)
    ensures Next(c, rules, Asks(zone, asker)).connected == c.connected
    ensures Next(c, rules, In(Untakable)).connected == c.connected
  {
  }
}
