/**
 The subscribes a client waits on, what its connection has seen, and the zones live on it,
 as values.
 */
module Subscribes {
  import opened Wrappers
  import opened Bytes
  import opened Text
  import opened Ops
  import opened Answers

  datatype Reply = Taken(heads: seq<Head>) | Denied(code: Option<Code>, message: string)

  datatype Subscribed<S> = Subscribed(zone: Zone, reply: Reply, waiter: S)

  /** All that waited in a table emptied: `failed` is told of no answer, and `refused` of a refusal
      with no reason. */
  datatype Abandoned<S> = Abandoned(failed: seq<S>, refused: seq<Subscribed<S>>)

  datatype ZoneRefusal = ZoneRefusal(zone: Zone, code: Code, message: string)

  datatype RefusedAfterAck<S> = RefusedAfterAck(zones: seq<ZoneRefusal>, subscribes: seq<Subscribed<S>>)

  datatype Asked<S> = Asked(zone: Zone, waiter: S)

  datatype Catching<S> = Catching(zone: Zone, heads: seq<Head>, waiter: S)

  datatype StreamHeads = StreamHeads(zone: Zone, heads: seq<Head>)

  type Seen = map<(Zone, string), int>

  /** Subscribes in their three stages, before the ack (`unacked`, in the order sent), after an empty
      one (`refused`) and after one with heads (`catching`); `seen` gives each zone's highest seq by
      origin; `live` has the zones acked and not refused. */
  datatype Replays<S> = Replays(
    unacked: seq<Asked<S>>,
    refused: seq<Asked<S>>,
    catching: seq<Catching<S>>,
    seen: Seen,
    live: seq<Zone>)

  function Fresh<S>(): Replays<S> {
    Replays([], [], [], map[], [])
  }

  function Ask<S>(t: Replays<S>, zone: Zone, waiter: S): Replays<S> {
    t.(unacked := t.unacked + [Asked(zone, waiter)])
  }

  predicate Reached(seen: Seen, zone: Zone, heads: seq<Head>) {
    forall i | 0 <= i < |heads| :: (zone, heads[i].origin) in seen && seen[(zone, heads[i].origin)] >= heads[i].no
  }

  /** Whether a subscribe's replay is in, of the zones looked at. */
  predicate Done<S>(c: Catching<S>, seen: Seen, zones: seq<Zone>) {
    c.zone in zones && Reached(seen, c.zone, c.heads)
  }

  function StillCatching<S>(catching: seq<Catching<S>>, seen: Seen, zones: seq<Zone>): seq<Catching<S>> {
    if catching == [] then []
    else
      var c := catching[|catching| - 1];
      StillCatching(catching[..|catching| - 1], seen, zones) + if Done(c, seen, zones) then [] else [c]
  }

  function CaughtUp<S>(catching: seq<Catching<S>>, seen: Seen, zones: seq<Zone>): seq<Subscribed<S>> {
    if catching == [] then []
    else
      var c := catching[|catching| - 1];
      CaughtUp(catching[..|catching| - 1], seen, zones) + if Done(c, seen, zones) then [Subscribed(c.zone, Taken(c.heads), c.waiter)] else []
  }

  function CatchUp<S>(t: Replays<S>, zones: seq<Zone>): (Replays<S>, seq<Subscribed<S>>) {
    (t.(catching := StillCatching(t.catching, t.seen, zones)), CaughtUp(t.catching, t.seen, zones))
  }

  function Waiters<S>(asked: seq<Asked<S>>): seq<S> {
    seq(|asked|, i requires 0 <= i < |asked| => asked[i].waiter)
  }

  function CatchingWaiters<S>(catching: seq<Catching<S>>): seq<S> {
    seq(|catching|, i requires 0 <= i < |catching| => catching[i].waiter)
  }

  const NO_REASON := "its reason did not come"

  function Unreasoned<S>(asked: seq<Asked<S>>): seq<Subscribed<S>> {
    seq(|asked|, i requires 0 <= i < |asked| => Subscribed(asked[i].zone, Denied(None, NO_REASON), asked[i].waiter))
  }

  function Abandon<S>(t: Replays<S>): (Replays<S>, Abandoned<S>) {
    (t.(unacked := [], catching := [], refused := []),
     Abandoned(Waiters(t.unacked) + CatchingWaiters(t.catching), Unreasoned(t.refused)))
  }

  function Enliven(live: seq<Zone>, ack: seq<StreamHeads>): seq<Zone> {
    if ack == [] || ack[0].zone in live then live else live + [ack[0].zone]
  }

  /** The ack of the oldest subscribe. Of those caught up by it, only the last is returned. */
  function Ack<S>(t: Replays<S>, ack: seq<StreamHeads>): (Replays<S>, Result<Option<Subscribed<S>>, Abandoned<S>>) {
    var t := t.(live := Enliven(t.live, ack));
    if t.unacked == [] then (t, Success(None))
    else
      var asked, rest := t.unacked[0], t.(unacked := t.unacked[1..]);
      if ack == [] then (rest.(refused := rest.refused + [asked]), Success(None))
      else if ack[0].zone != asked.zone then
        var (t', abandoned) := Abandon(t);
        (t', Failure(abandoned))
      else
        var (t', done) := CatchUp(rest.(catching := rest.catching + [Catching(asked.zone, ack[0].heads, asked.waiter)]), [asked.zone]);
        (t', Success(if done == [] then None else Some(done[|done| - 1])))
  }

  /** Whether a status carries a zone's share and stream; its key is not compared. */
  predicate Names(status: Status, zone: Zone) {
    status.share == Some(zone.share) && status.gladeId == Some(zone.gladeId)
  }

  function FirstNamed<S>(asked: seq<Asked<S>>, status: Status): (at: nat)
    ensures at <= |asked| && (at < |asked| ==> Names(status, asked[at].zone))
    ensures forall i | 0 <= i < at :: !Names(status, asked[i].zone)
  {
    if asked == [] || Names(status, asked[0].zone) then 0 else 1 + FirstNamed(asked[1..], status)
  }

  /** The first refused subscribe of a zone the status names leaves, with its message. */
  function Reason<S>(t: Replays<S>, status: Status): (Replays<S>, Option<Subscribed<S>>) {
    var at := FirstNamed(t.refused, status);
    if status.corr.Some? || at == |t.refused| then (t, None)
    else (t.(refused := t.refused[..at] + t.refused[at + 1..]),
          Some(Subscribed(t.refused[at].zone, Denied(Some(status.code), status.message), t.refused[at].waiter)))
  }

  function ZonesNamed(live: seq<Zone>, status: Status, named: bool): seq<Zone> {
    if live == [] then []
    else
      var z := live[|live| - 1];
      ZonesNamed(live[..|live| - 1], status, named) + if Names(status, z) == named then [z] else []
  }

  function CatchingNamed<S>(catching: seq<Catching<S>>, status: Status, named: bool): seq<Catching<S>> {
    if catching == [] then []
    else
      var c := catching[|catching| - 1];
      CatchingNamed(catching[..|catching| - 1], status, named) + if Names(status, c.zone) == named then [c] else []
  }

  function Refusals(zones: seq<Zone>, status: Status): seq<ZoneRefusal> {
    seq(|zones|, i requires 0 <= i < |zones| => ZoneRefusal(zones[i], status.code, status.message))
  }

  function DeniedAll<S>(catching: seq<Catching<S>>, status: Status): seq<Subscribed<S>> {
    seq(|catching|, i requires 0 <= i < |catching| =>
      Subscribed(catching[i].zone, Denied(Some(status.code), status.message), catching[i].waiter))
  }

  /** Whether a status is neither an op's nor the reason of a subscribe in `refused`, and so refuses
      zones already acked. */
  predicate AfterAck<S>(t: Replays<S>, status: Status) {
    status.corr.None? && FirstNamed(t.refused, status) == |t.refused|
  }

  function RefuseAfterAck<S>(t: Replays<S>, status: Status): (Replays<S>, RefusedAfterAck<S>) {
    if !AfterAck(t, status) then (t, RefusedAfterAck([], []))
    else
      (t.(live := ZonesNamed(t.live, status, false), catching := CatchingNamed(t.catching, status, false)),
       RefusedAfterAck(Refusals(ZonesNamed(t.live, status, true), status), DeniedAll(CatchingNamed(t.catching, status, true), status)))
  }

  function SeeOne(seen: Seen, op: Op): Seen {
    var at := (ZoneOf(op), op.origin);
    seen[at := if at in seen && seen[at] > op.no then seen[at] else op.no]
  }

  function See(seen: Seen, ops: seq<Op>): Seen {
    if ops == [] then seen else SeeOne(See(seen, ops[..|ops| - 1]), ops[|ops| - 1])
  }

  function ZonesOf(ops: seq<Op>): seq<Zone> {
    if ops == [] then []
    else
      var zones, z := ZonesOf(ops[..|ops| - 1]), ZoneOf(ops[|ops| - 1]);
      if z in zones then zones else zones + [z]
  }

  /** Received ops raise what was seen; the subscribes of their zones now caught up leave. */
  function Receive<S>(t: Replays<S>, ops: seq<Op>): (Replays<S>, seq<Subscribed<S>>) {
    CatchUp(t.(seen := See(t.seen, ops)), ZonesOf(ops))
  }

  /** An answer raises what was seen when the op was accepted, and not otherwise. */
  function Answer<S>(t: Replays<S>, op: Op, outcome: Outcome): (Replays<S>, seq<Subscribed<S>>) {
    if outcome != Accepted then (t, []) else CatchUp(t.(seen := SeeOne(t.seen, op)), [ZoneOf(op)])
  }

  function CatchingIn<S>(catching: seq<Catching<S>>, zones: seq<Zone>, inside: bool): seq<Catching<S>> {
    if catching == [] then []
    else
      var c := catching[|catching| - 1];
      CatchingIn(catching[..|catching| - 1], zones, inside) + if (c.zone in zones) == inside then [c] else []
  }

  /** A refused frame: the catching subscribes of its zones leave, failed. */
  function Fail<S>(t: Replays<S>, ops: seq<Op>): (Replays<S>, seq<S>) {
    (t.(catching := CatchingIn(t.catching, ZonesOf(ops), false)), CatchingWaiters(CatchingIn(t.catching, ZonesOf(ops), true)))
  }

  function End<S>(t: Replays<S>): (Replays<S>, Abandoned<S>) {
    Abandon(t.(seen := map[], live := []))
  }
}

/** The same table in place. */
module SubscribeTable {
  import opened Wrappers
  import opened Ops
  import opened Answers
  import opened Subscribes
  import R = Subscribes

  class Table<S(==)> {
    var unacked: seq<Asked<S>>
    var refused: seq<Asked<S>>
    var catching: seq<Catching<S>>
    var seen: Seen
    var live: seq<Zone>

    ghost function Now(): R.Replays<S>
      reads this
    {
      R.Replays(unacked, refused, catching, seen, live)
    }

    constructor ()
      ensures Now() == Fresh()
    {
      unacked, refused, catching, seen, live := [], [], [], map[], [];
    }

    method Sent(zone: Zone, waiter: S)
      modifies this`unacked
      ensures Now() == Ask(old(Now()), zone, waiter)
    {
      unacked := unacked + [Asked(zone, waiter)];
    }

    method Acked(ack: seq<StreamHeads>) returns (r: Result<Option<Subscribed<S>>, Abandoned<S>>)
      modifies this
      ensures (Now(), r) == Ack(old(Now()), ack)
    {
      if ack != [] && ack[0].zone !in live {
        live := live + [ack[0].zone];
      }
      if unacked == [] {
        return Success(None);
      }
      var asked := unacked[0];
      unacked := unacked[1..];
      if ack == [] {
        refused := refused + [asked];
        return Success(None);
      }
      if ack[0].zone != asked.zone {
        unacked := [asked] + unacked;
        assert unacked == old(unacked);
        var abandoned := Abandon();
        return Failure(abandoned);
      }
      catching := catching + [Catching(asked.zone, ack[0].heads, asked.waiter)];
      var done := CaughtUp([asked.zone]);
      return Success(if done == [] then None else Some(done[|done| - 1]));
    }

    method Reason(status: Status) returns (r: Option<Subscribed<S>>)
      modifies this`refused
      ensures (Now(), r) == R.Reason(old(Now()), status)
    {
      if status.corr.Some? {
        return None;
      }
      var at := 0;
      while at < |refused| && !Names(status, refused[at].zone)
        invariant at <= |refused| && forall i | 0 <= i < at :: !Names(status, refused[i].zone)
      {
        at := at + 1;
      }
      assert at == FirstNamed(refused, status);
      if at == |refused| {
        return None;
      }
      r := Some(Subscribed(refused[at].zone, Denied(Some(status.code), status.message), refused[at].waiter));
      refused := refused[..at] + refused[at + 1..];
    }

    method RefusedAfterAck(status: Status) returns (r: RefusedAfterAck<S>)
      modifies this
      ensures (Now(), r) == RefuseAfterAck(old(Now()), status)
    {
      var reason := exists i | 0 <= i < |refused| :: Names(status, refused[i].zone);
      if status.corr.Some? || reason {
        return R.RefusedAfterAck([], []);
      }
      var zones, kept := [], [];
      for i := 0 to |live|
        invariant zones == ZonesNamed(live[..i], status, true) && kept == ZonesNamed(live[..i], status, false)
      {
        assert live[..i + 1][..i] == live[..i];
        if Names(status, live[i]) {
          zones := zones + [live[i]];
        } else {
          kept := kept + [live[i]];
        }
      }
      assert live[..|live|] == live;
      var waiting, still := [], [];
      for i := 0 to |catching|
        invariant waiting == CatchingNamed(catching[..i], status, true) && still == CatchingNamed(catching[..i], status, false)
      {
        assert catching[..i + 1][..i] == catching[..i];
        if Names(status, catching[i].zone) {
          waiting := waiting + [catching[i]];
        } else {
          still := still + [catching[i]];
        }
      }
      assert catching[..|catching|] == catching;
      live, catching := kept, still;
      return R.RefusedAfterAck(Refusals(zones, status), DeniedAll(waiting, status));
    }

    method Received(ops: seq<Op>) returns (done: seq<Subscribed<S>>)
      modifies this
      ensures (Now(), done) == Receive(old(Now()), ops)
    {
      var zones := [];
      for i := 0 to |ops|
        invariant zones == ZonesOf(ops[..i])
        invariant Now() == old(Now()).(seen := See(old(seen), ops[..i]))
      {
        assert ops[..i + 1][..i] == ops[..i];
        Saw(ops[i]);
        if ZoneOf(ops[i]) !in zones {
          zones := zones + [ZoneOf(ops[i])];
        }
      }
      assert ops[..|ops|] == ops;
      done := CaughtUp(zones);
    }

    method Answered(op: Op, outcome: Outcome) returns (done: seq<Subscribed<S>>)
      modifies this
      ensures (Now(), done) == Answer(old(Now()), op, outcome)
    {
      if outcome != Accepted {
        return [];
      }
      Saw(op);
      done := CaughtUp([ZoneOf(op)]);
    }

    method Failed(ops: seq<Op>) returns (failed: seq<S>)
      modifies this`catching
      ensures (Now(), failed) == Fail(old(Now()), ops)
    {
      var waiting: seq<Catching<S>>, still: seq<Catching<S>> := [], [];
      for i := 0 to |catching|
        invariant catching == old(catching)
        invariant waiting == CatchingIn(catching[..i], ZonesOf(ops), true) && still == CatchingIn(catching[..i], ZonesOf(ops), false)
      {
        assert catching[..i + 1][..i] == catching[..i];
        if catching[i].zone in ZonesOf(ops) {
          waiting := waiting + [catching[i]];
        } else {
          still := still + [catching[i]];
        }
      }
      assert catching[..|catching|] == catching;
      catching := still;
      failed := CatchingWaiters(waiting);
    }

    method NotTaken() returns (abandoned: Abandoned<S>)
      modifies this
      ensures (Now(), abandoned) == R.Abandon(old(Now()))
    {
      abandoned := Abandon();
    }

    method Ended() returns (abandoned: Abandoned<S>)
      modifies this
      ensures (Now(), abandoned) == R.End(old(Now()))
    {
      seen, live := map[], [];
      abandoned := Abandon();
    }

    method Abandon() returns (abandoned: Abandoned<S>)
      modifies this
      ensures (Now(), abandoned) == R.Abandon(old(Now()))
    {
      abandoned := Abandoned(Waiters(unacked) + CatchingWaiters(catching), Unreasoned(refused));
      unacked, catching, refused := [], [], [];
    }

    method Saw(op: Op)
      modifies this`seen
      ensures seen == SeeOne(old(seen), op)
    {
      var at := (ZoneOf(op), op.origin);
      var highest := if at in seen then seen[at] else op.no;
      seen := seen[at := if highest > op.no then highest else op.no];
    }

    /** The table without the `Done` subscribes of `zones`, which are returned in order. */
    method CaughtUp(zones: seq<Zone>) returns (done: seq<Subscribed<S>>)
      modifies this`catching
      ensures (Now(), done) == CatchUp(old(Now()), zones)
    {
      done := [];
      var at := 0;
      ghost var from := 0;
      while at < |catching|
        invariant at <= |catching| && from + |catching| - at == |old(catching)| && 0 <= from <= |old(catching)|
        invariant catching[at..] == old(catching)[from..]
        invariant catching[..at] == StillCatching(old(catching)[..from], seen, zones)
        invariant done == R.CaughtUp(old(catching)[..from], seen, zones)
        decreases |catching| - at
      {
        var c := catching[at];
        assert c == old(catching)[from] && old(catching)[..from + 1][..from] == old(catching)[..from];
        if c.zone in zones && Reached(seen, c.zone, c.heads) {
          catching := catching[..at] + catching[at + 1..];
          done := done + [Subscribed(c.zone, Taken(c.heads), c.waiter)];
        } else {
          at := at + 1;
        }
        from := from + 1;
      }
      assert catching[..at] == catching && old(catching)[..from] == old(catching);
    }
  }
}
