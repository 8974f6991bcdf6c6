/** What the table of subscribes keeps: no replay already in is left waiting, every zone being
    caught up is live, and so every waiter is told once or held. */
module SubscribeLaws {
  import opened Wrappers
  import opened Bytes
  import opened Text
  import opened Ops
  import opened Answers
  import opened Subscribes

  /** No subscribe waits for a replay already in, and each one's zone is live. */
  ghost predicate Settled<S>(t: Replays<S>) {
    forall i | 0 <= i < |t.catching| :: Waits(t, t.catching[i])
  }

  ghost predicate Waits<S>(t: Replays<S>, c: Catching<S>) {
    !Reached(t.seen, c.zone, c.heads) && c.zone in t.live
  }

  lemma {:induction false} StillAre<S>(catching: seq<Catching<S>>, seen: Seen, zones: seq<Zone>)
    ensures forall i | 0 <= i < |StillCatching(catching, seen, zones)| ::
      StillCatching(catching, seen, zones)[i] in catching && !Done(StillCatching(catching, seen, zones)[i], seen, zones)
    ensures (forall c | c in catching :: !Done(c, seen, zones)) ==>
      StillCatching(catching, seen, zones) == catching && CaughtUp(catching, seen, zones) == []
  {
    if catching != [] {
      var init, c := catching[..|catching| - 1], catching[|catching| - 1];
      assert catching == init + [c];
      StillAre(init, seen, zones);
    }
  }

  lemma SettledIn<S>(t: Replays<S>)
    ensures Settled(t) <==> forall c | c in t.catching :: Waits(t, c)
  {
  }

  lemma {:induction false} SeeElsewhere(seen: Seen, ops: seq<Op>, zone: Zone, heads: seq<Head>)
    requires zone !in ZonesOf(ops)
    ensures Reached(See(seen, ops), zone, heads) <==> Reached(seen, zone, heads)
  {
    if ops != [] {
      SeeElsewhere(seen, ops[..|ops| - 1], zone, heads);
    }
  }

  lemma CatchUpSettles<S>(t: Replays<S>, zones: seq<Zone>)
    requires forall c | c in t.catching :: c.zone in t.live && (c.zone in zones || !Reached(t.seen, c.zone, c.heads))
    ensures Settled(CatchUp(t, zones).0)
  {
    hide Reached;
    StillAre(t.catching, t.seen, zones);
    SettledIn(CatchUp(t, zones).0);
  }

  /** An ack returns every subscribe it catches up: its own, or none. So taking the last of
      them drops no waiter. */
  lemma AckDropsNone<S>(t: Replays<S>, ack: seq<StreamHeads>)
    requires Settled(t) && ack != [] && t.unacked != [] && ack[0].zone == t.unacked[0].zone
    ensures var (t', r) := Ack(t, ack);
      && r.Success?
      && (if Reached(t.seen, ack[0].zone, ack[0].heads)
          then r.value == Some(Subscribed(ack[0].zone, Taken(ack[0].heads), t.unacked[0].waiter)) && t'.catching == t.catching
          else r.value == None && t'.catching == t.catching + [Catching(ack[0].zone, ack[0].heads, t.unacked[0].waiter)])
      && t'.unacked == t.unacked[1..] && t'.refused == t.refused && t'.seen == t.seen
  {
    hide Reached;
    var zones := [ack[0].zone];
    var c := Catching(t.unacked[0].zone, ack[0].heads, t.unacked[0].waiter);
    var more := t.catching + [c];
    assert more[..|t.catching|] == t.catching;
    SettledIn(t);
    StillAre(t.catching, t.seen, zones);
  }

  lemma AckSettles<S>(t: Replays<S>, ack: seq<StreamHeads>)
    requires Settled(t)
    ensures Settled(Ack(t, ack).0)
  {
    hide Reached;
    if ack != [] && t.unacked != [] && ack[0].zone == t.unacked[0].zone {
      AckDropsNone(t, ack);
    }
  }

  lemma {:induction false} NamedAre<S>(catching: seq<Catching<S>>, live: seq<Zone>, status: Status, named: bool)
    ensures forall i | 0 <= i < |CatchingNamed(catching, status, named)| ::
      CatchingNamed(catching, status, named)[i] in catching && Names(status, CatchingNamed(catching, status, named)[i].zone) == named
    ensures forall z :: z in ZonesNamed(live, status, named) <==> z in live && Names(status, z) == named
  {
    if catching != [] {
      assert catching == catching[..|catching| - 1] + [catching[|catching| - 1]];
      NamedAre(catching[..|catching| - 1], live, status, named);
    } else if live != [] {
      assert live == live[..|live| - 1] + [live[|live| - 1]];
      NamedAre(catching, live[..|live| - 1], status, named);
    }
  }

  /** An error that refuses a subscribe after its ack refuses a live zone too, so a caller that
      passes over an empty list of zones drops no waiter; and no zone it names stays live. */
  lemma RefusalNamesAZone<S>(t: Replays<S>, status: Status)
    requires Settled(t)
    ensures var (t', r) := RefuseAfterAck(t, status);
      && Settled(t')
      && (r.zones == [] ==> r.subscribes == [] && t' == t)
      && (AfterAck(t, status) ==> forall z :: z in t'.live <==> z in t.live && !Names(status, z))
  {
    hide Reached;
    var (t', r) := RefuseAfterAck(t, status);
    if AfterAck(t, status) {
      NamedAre(t.catching, t.live, status, true);
      NamedAre(t.catching, t.live, status, false);
      SettledIn(t);
      SettledIn(t');
      var waiting, zones := CatchingNamed(t.catching, status, true), ZonesNamed(t.live, status, true);
      if waiting != [] {
        assert waiting[0] in waiting && waiting[0] in t.catching && Waits(t, waiting[0]);
        assert waiting[0].zone in zones;
      }
      if zones == [] {
        NoneNamed(t.catching, t.live, status);
      }
    }
  }

  lemma {:induction false} NoneNamed<S>(catching: seq<Catching<S>>, live: seq<Zone>, status: Status)
    ensures CatchingNamed(catching, status, true) == [] ==> CatchingNamed(catching, status, false) == catching
    ensures ZonesNamed(live, status, true) == [] ==> ZonesNamed(live, status, false) == live
  {
    if catching != [] {
      assert catching == catching[..|catching| - 1] + [catching[|catching| - 1]];
      NoneNamed(catching[..|catching| - 1], live, status);
    } else if live != [] {
      assert live == live[..|live| - 1] + [live[|live| - 1]];
      NoneNamed(catching, live[..|live| - 1], status);
    }
  }

  lemma {:induction false} InsideAre<S>(catching: seq<Catching<S>>, zones: seq<Zone>, inside: bool)
    ensures forall i | 0 <= i < |CatchingIn(catching, zones, inside)| ::
      CatchingIn(catching, zones, inside)[i] in catching && (CatchingIn(catching, zones, inside)[i].zone in zones) == inside
  {
    if catching != [] {
      assert catching == catching[..|catching| - 1] + [catching[|catching| - 1]];
      InsideAre(catching[..|catching| - 1], zones, inside);
    }
  }

  lemma OthersSettle<S>(t: Replays<S>, ops: seq<Op>, op: Op, outcome: Outcome, status: Status)
    requires Settled(t)
    ensures Settled(Receive(t, ops).0) && Settled(Answer(t, op, outcome).0) && Settled(Fail(t, ops).0)
    ensures Settled(Reason(t, status).0) && Settled(Abandon(t).0) && Settled(Subscribes.End(t).0)
  {
    hide Reached;
    SettledIn(t);
    forall c | c in t.catching && c.zone !in ZonesOf(ops) ensures !Reached(See(t.seen, ops), c.zone, c.heads) {
      SeeElsewhere(t.seen, ops, c.zone, c.heads);
    }
    CatchUpSettles(t.(seen := See(t.seen, ops)), ZonesOf(ops));
    assert See(t.seen, [op]) == SeeOne(t.seen, op) by {
      assert [op][..0] == [];
    }
    forall c | c in t.catching && c.zone != ZoneOf(op) ensures !Reached(SeeOne(t.seen, op), c.zone, c.heads) {
      SeeElsewhere(t.seen, [op], c.zone, c.heads);
    }
    CatchUpSettles(t.(seen := SeeOne(t.seen, op)), [ZoneOf(op)]);
    InsideAre(t.catching, ZonesOf(ops), false);
    SettledIn(Fail(t, ops).0);
  }

  // Waiters.

  function Held<S>(t: Replays<S>): multiset<S> {
    multiset(Waiters(t.unacked)) + multiset(Waiters(t.refused)) + multiset(CatchingWaiters(t.catching))
  }

  function Told<S>(subscribed: seq<Subscribed<S>>): seq<S> {
    seq(|subscribed|, i requires 0 <= i < |subscribed| => subscribed[i].waiter)
  }

  function ToldBy<S>(subscribed: seq<Subscribed<S>>): multiset<S> {
    multiset(Told(subscribed))
  }

  lemma WaitersSplit<S>(a: seq<Asked<S>>, b: seq<Asked<S>>)
    ensures multiset(Waiters(a + b)) == multiset(Waiters(a)) + multiset(Waiters(b))
  {
    assert Waiters(a + b) == Waiters(a) + Waiters(b);
  }

  lemma CatchingSplit<S>(a: seq<Catching<S>>, b: seq<Catching<S>>)
    ensures multiset(CatchingWaiters(a + b)) == multiset(CatchingWaiters(a)) + multiset(CatchingWaiters(b))
  {
    assert CatchingWaiters(a + b) == CatchingWaiters(a) + CatchingWaiters(b);
  }

  lemma ToldSplit<S>(a: seq<Subscribed<S>>, b: seq<Subscribed<S>>)
    ensures ToldBy(a + b) == ToldBy(a) + ToldBy(b)
  {
    assert Told(a + b) == Told(a) + Told(b);
  }

  lemma {:induction false} CatchingTells<S>(catching: seq<Catching<S>>, seen: Seen, zones: seq<Zone>)
    ensures multiset(CatchingWaiters(StillCatching(catching, seen, zones))) + ToldBy(CaughtUp(catching, seen, zones))
         == multiset(CatchingWaiters(catching))
  {
    hide Done;
    if catching != [] {
      var init, c := catching[..|catching| - 1], catching[|catching| - 1];
      assert catching == init + [c];
      CatchingTells(init, seen, zones);
      CatchingSplit(init, [c]);
      CatchingSplit(StillCatching(init, seen, zones), [c]);
      ToldSplit(CaughtUp(init, seen, zones), [Subscribed(c.zone, Taken(c.heads), c.waiter)]);
      assert Told([Subscribed(c.zone, Taken(c.heads), c.waiter)]) == CatchingWaiters([c]);
      assert StillCatching(init, seen, zones) + [] == StillCatching(init, seen, zones);
      assert CaughtUp(init, seen, zones) + [] == CaughtUp(init, seen, zones);
    }
  }

  /** Ops and answers: each subscribe is told or still held. */
  lemma CatchUpTells<S>(t: Replays<S>, zones: seq<Zone>)
    ensures Held(CatchUp(t, zones).0) + ToldBy(CatchUp(t, zones).1) == Held(t)
  {
    hide ToldBy;
    CatchingTells(t.catching, t.seen, zones);
  }

  lemma {:induction false} NamedTells<S>(catching: seq<Catching<S>>, status: Status)
    ensures multiset(CatchingWaiters(CatchingNamed(catching, status, false))) + multiset(CatchingWaiters(CatchingNamed(catching, status, true)))
         == multiset(CatchingWaiters(catching))
  {
    hide Names;
    if catching != [] {
      var init, c := catching[..|catching| - 1], catching[|catching| - 1];
      assert catching == init + [c];
      NamedTells(init, status);
      CatchingSplit(init, [c]);
      CatchingSplit(CatchingNamed(init, status, false), [c]);
      CatchingSplit(CatchingNamed(init, status, true), [c]);
      assert CatchingNamed(init, status, false) + [] == CatchingNamed(init, status, false);
      assert CatchingNamed(init, status, true) + [] == CatchingNamed(init, status, true);
    }
  }

  lemma {:induction false} InsideTells<S>(catching: seq<Catching<S>>, zones: seq<Zone>)
    ensures multiset(CatchingWaiters(CatchingIn(catching, zones, false))) + multiset(CatchingWaiters(CatchingIn(catching, zones, true)))
         == multiset(CatchingWaiters(catching))
  {
    if catching != [] {
      var init, c := catching[..|catching| - 1], catching[|catching| - 1];
      assert catching == init + [c];
      InsideTells(init, zones);
      CatchingSplit(init, [c]);
      CatchingSplit(CatchingIn(init, zones, false), [c]);
      CatchingSplit(CatchingIn(init, zones, true), [c]);
      assert CatchingIn(init, zones, false) + [] == CatchingIn(init, zones, false);
      assert CatchingIn(init, zones, true) + [] == CatchingIn(init, zones, true);
    }
  }

  function AbandonedWaiters<S>(a: Abandoned<S>): multiset<S> {
    multiset(a.failed) + ToldBy(a.refused)
  }

  lemma AbandonTells<S>(t: Replays<S>)
    ensures Held(Abandon(t).0) == multiset{} && AbandonedWaiters(Abandon(t).1) == Held(t)
  {
    var (t', a) := Abandon(t);
    assert Told(a.refused) == Waiters(t.refused);
  }

  /** An ack: with no replay left waiting that is already in, its own subscribe is told or held,
      or, naming another zone, every one is told. */
  lemma AckTells<S>(t: Replays<S>, ack: seq<StreamHeads>)
    requires Settled(t)
    ensures var (t', r) := Ack(t, ack);
      match r
      case Success(done) => Held(t') + ToldBy(AsSeq(done)) == Held(t)
      case Failure(abandoned) => Held(t') == multiset{} && AbandonedWaiters(abandoned) == Held(t)
  {
    hide Settled, Reached, Waiters, CatchingWaiters, Enliven, CaughtUp, StillCatching;
    if t.unacked != [] {
      var asked := t.unacked[0];
      AskedOne(t.unacked, t.refused);
      if ack == [] {
      } else if ack[0].zone != asked.zone {
        AbandonTells(t.(live := Enliven(t.live, ack)));
      } else {
        var c := Catching(asked.zone, ack[0].heads, asked.waiter);
        AckDropsNone(t, ack);
        CatchingSplit(t.catching, [c]);
        assert CatchingWaiters([c]) == [asked.waiter] by { OneCatching(c); }
      }
    }
  }

  lemma AskedOne<S>(unacked: seq<Asked<S>>, refused: seq<Asked<S>>)
    requires unacked != []
    ensures multiset(Waiters(unacked)) == multiset(Waiters(unacked[1..])) + multiset{unacked[0].waiter}
    ensures multiset(Waiters(refused + [unacked[0]])) == multiset(Waiters(refused)) + multiset{unacked[0].waiter}
  {
    var asked := unacked[0];
    assert unacked == [asked] + unacked[1..];
    WaitersSplit([asked], unacked[1..]);
    WaitersSplit(refused, [asked]);
    assert Waiters([asked]) == [asked.waiter];
  }

  lemma OneCatching<S>(c: Catching<S>)
    ensures CatchingWaiters([c]) == [c.waiter]
  {
  }

  lemma ReasonTells<S>(t: Replays<S>, status: Status)
    ensures Held(Reason(t, status).0) + ToldBy(AsSeq(Reason(t, status).1)) == Held(t)
  {
    hide FirstNamed, Names, Waiters, CatchingWaiters;
    var at := FirstNamed(t.refused, status);
    if status.corr.None? && at < |t.refused| {
      var asked := t.refused[at];
      TakingOne(t.refused, at);
      assert Told(AsSeq(Reason(t, status).1)) == [asked.waiter];
    }
  }

  lemma TakingOne<S>(asked: seq<Asked<S>>, at: nat)
    requires at < |asked|
    ensures multiset(Waiters(asked)) == multiset(Waiters(asked[..at] + asked[at + 1..])) + multiset{asked[at].waiter}
  {
    var before, one, after := asked[..at], [asked[at]], asked[at + 1..];
    assert asked == before + (one + after);
    WaitersSplit(before, one + after);
    WaitersSplit(one, after);
    WaitersSplit(before, after);
    assert Waiters(one) == [asked[at].waiter];
  }

  lemma RefusalTells<S>(t: Replays<S>, status: Status)
    ensures var (t', r) := RefuseAfterAck(t, status); Held(t') + ToldBy(r.subscribes) == Held(t)
  {
    var (t', r) := RefuseAfterAck(t, status);
    if AfterAck(t, status) {
      var waiting := CatchingNamed(t.catching, status, true);
      NamedTells(t.catching, status);
      assert Told(r.subscribes) == CatchingWaiters(waiting);
    }
  }

  lemma FailTells<S>(t: Replays<S>, ops: seq<Op>)
    ensures Held(Fail(t, ops).0) + multiset(Fail(t, ops).1) == Held(t)
  {
    InsideTells(t.catching, ZonesOf(ops));
  }

  lemma AskHolds<S>(t: Replays<S>, zone: Zone, waiter: S)
    ensures Held(Ask(t, zone, waiter)) == Held(t) + multiset{waiter}
  {
    WaitersSplit(t.unacked, [Asked(zone, waiter)]);
    assert Waiters([Asked(zone, waiter)]) == [waiter];
  }
}
