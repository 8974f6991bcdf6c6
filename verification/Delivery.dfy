/**
 What a link's conversations are promised, over every run of its two ends.
 */
module Delivery {
  import opened Wrappers
  import opened Bytes
  import opened Framing
  import opened Links
  import opened FrameLog
  import opened TwoEnds

  /** One end of a run, the other, and what is in transit from the other. */
  function This(s: System, dialer: bool): Side { if dialer then s.dialer else s.acceptor }
  function Far(s: System, dialer: bool): Side { This(s, !dialer) }
  function Incoming(s: System, dialer: bool): Log { if dialer then s.toDialer else s.toAcceptor }
  function Outgoing(s: System, dialer: bool): Log { Incoming(s, !dialer) }
  function Parity(dialer: bool): int { if dialer then 1 else 0 }

  /** What the far end has put on a conversation, as its reader is given it. */
  function Said(s: System, dialer: bool, id: u32): seq<Item> {
    Items(On(Far(s, dialer).sent, id))
  }

  lemma PairOf(max: int, moves: seq<Move>, dialer: bool)
    ensures var s := Run(max, moves);
      Pair(This(s, dialer), Far(s, dialer), Parity(dialer), Incoming(s, dialer), Outgoing(s, dialer))
  {
    hide Local, Fifo;
    RunKeeps(max, moves);
  }

  lemma ReadsOfRouted(e: Side, p: int, id: u32)
    requires Local(e, p) && id in e.convs
    ensures var read, taken := e.convs[id].read, Items(On(e.routed, id));
      && read <= taken
      && (Ended in read ==> read == taken && id in Closed(e.routed) && forall i | 0 <= i < |read| - 1 :: read[i].Body?)
  {
    hide Honest, Ids, Closed, High, On, Items, Encode, Header, Sends;
    assert ConvOk(e, id);
    var read, taken := e.convs[id].read, Items(On(e.routed, id));
    assert read <= taken;
    EndsLast(e.routed, 1 - p, id);
    if Ended in read {
      var i :| 0 <= i < |read| && read[i] == Ended;
      assert taken[i] == Ended;
    }
  }

  lemma RoutedOfSent(e: Side, peer: Side, p: int, wireIn: Log, wireOut: Log, id: u32)
    requires Pair(e, peer, p, wireIn, wireOut)
    ensures e.routed <= peer.sent && Honest(peer.sent, 1 - p)
    ensures Items(On(e.routed, id)) <= Items(On(peer.sent, id))
    ensures id in Closed(e.routed) ==> On(e.routed, id) == On(peer.sent, id)
  {
    hide Ids, Closed, High, On, Items, Encode, Header, Sends, Tables;
    FifoPrefix(peer, wireIn, e.routed);
    PrefixOf(e.routed, peer.sent, 1 - p, id);
  }

  /** What has been read on a conversation is a prefix of what the far end put on it: in
      order, with no repeat and no gap. Once END has been read, that is all of it. */
  lemma ReadsAreAPrefix(max: int, moves: seq<Move>, dialer: bool, id: u32)
    requires id in This(Run(max, moves), dialer).convs
    ensures var s := Run(max, moves);
      var read := This(s, dialer).convs[id].read;
      && read <= Said(s, dialer, id)
      && (Ended in read ==> read == Said(s, dialer, id) && forall i | 0 <= i < |read| - 1 :: read[i].Body?)
  {
    hide Honest, Ids, Closed, High, On, Items, Encode, Header, Sends, Tables, Numbers;
    PairOf(max, moves, dialer);
    var s := Run(max, moves);
    RoutedOfSent(This(s, dialer), Far(s, dialer), Parity(dialer), Incoming(s, dialer), Outgoing(s, dialer), id);
    ReadsOfRouted(This(s, dialer), Parity(dialer), id);
  }

  lemma ReceiveOfRouted(e: Side, p: int, id: u32)
    requires Local(e, p) && Holds(e, id)
    ensures var read, taken := e.convs[id].read, Items(On(e.routed, id));
      match Receive(e, id)
      case Eof => id in Closed(e.routed) && taken == (if Ended in read then read else read + [Ended])
      case WasReset => !e.link.ended && id in Closed(e.routed) && Ended !in taken
      case Aborted => e.link.ended
      case Got(body) => read + [Body(body)] <= taken
      case Waits => true
  {
    hide Honest, Ids, Closed, High, On, Items, Encode, Header, Sends;
    assert ConvOk(e, id);
    ReadsOfRouted(e, p, id);
    EndsLast(e.routed, 1 - p, id);
    var c, taken := e.convs[id], Items(On(e.routed, id));
    if Ended !in c.read && c.queue != [] {
      assert taken[|c.read|] == c.queue[0];
      assert c.read + [c.queue[0]] <= taken;
    }
  }

  predicate HasReset(ms: seq<Msg>) {
    exists m :: m in ms && m.kind == Reset
  }

  /** What a receive's errors mean. A clean end: the far end put END on it, and every frame
      before it has been read. A reset: the far end reset it, and never ended it. An abort:
      this end's link has ended. */
  lemma ErrorsSayWhatHappened(max: int, moves: seq<Move>, dialer: bool, id: u32)
    requires Holds(This(Run(max, moves), dialer), id)
    ensures var s := Run(max, moves);
      var e := This(s, dialer);
      var read := e.convs[id].read;
      match Receive(e, id)
      case Eof => Said(s, dialer, id) == (if Ended in read then read else read + [Ended])
      case WasReset => !e.link.ended && HasReset(On(Far(s, dialer).sent, id)) && Ended !in Said(s, dialer, id)
      case Aborted => e.link.ended
      case Got(body) => read + [Body(body)] <= Said(s, dialer, id)
      case Waits => true
  {
    hide Honest, Ids, Closed, High, On, Items, Encode, Header, Sends, Tables;
    PairOf(max, moves, dialer);
    var s := Run(max, moves);
    var e := This(s, dialer);
    RoutedOfSent(e, Far(s, dialer), Parity(dialer), Incoming(s, dialer), Outgoing(s, dialer), id);
    ReceiveOfRouted(e, Parity(dialer), id);
    EndsLast(e.routed, 1 - Parity(dialer), id);
  }

  lemma {:induction false} ItemsConcat(a: seq<Msg>, b: seq<Msg>)
    ensures Items(a + b) == Items(a) + Items(b)
  {
    if b == [] {
      assert a + b == a;
    } else {
      assert (a + b)[..|a + b| - 1] == a + b[..|b| - 1];
      ItemsConcat(a, b[..|b| - 1]);
    }
  }

  lemma {:induction false} OnConcat(a: Log, b: Log, id: u32)
    ensures On(a + b, id) == On(a, id) + On(b, id)
    ensures Items(On(a + b, id)) == Items(On(a, id)) + Items(On(b, id))
  {
    hide Header, Items;
    if b == [] {
      assert a + b == a;
    } else {
      assert (a + b)[..|a + b| - 1] == a + b[..|b| - 1];
      OnConcat(a, b[..|b| - 1], id);
    }
    ItemsConcat(On(a, id), On(b, id));
  }

  /** Nothing is lost while both ends run: what the far end put on a held conversation has
      been read, or waits in its queue, in the reader's hand, in transit or with the writer. */
  lemma NothingIsLost(max: int, moves: seq<Move>, dialer: bool, id: u32)
    requires Holds(This(Run(max, moves), dialer), id) && Far(Run(max, moves), dialer).link.writing
    ensures var s := Run(max, moves);
      var e, c := This(s, dialer), This(s, dialer).convs[id];
      Said(s, dialer, id) == c.read + c.queue + Pending(e, id)
        + Items(On(Incoming(s, dialer), id)) + Items(On(Sends(Far(s, dialer).link.out), id))
  {
    hide Honest, Ids, Closed, High, On, Items, Encode, Header, Sends, Numbers;
    PairOf(max, moves, dialer);
    var s := Run(max, moves);
    var e := This(s, dialer);
    assert ConvOk(e, id);
    OnConcat(e.routed + Incoming(s, dialer), Sends(Far(s, dialer).link.out), id);
    OnConcat(e.routed, Incoming(s, dialer), id);
  }

  /** Whether the frame at `i` is the first on its number. */
  predicate First(log: Log, i: nat)
    requires i < |log| && Header(log[i]).Some?
  {
    forall k | 0 <= k < i :: Header(log[k]).Some? ==> Header(log[k]).value.id != Header(log[i]).value.id
  }

  lemma {:induction false} IdsAre(log: Log, id: u32)
    ensures id in Ids(log) <==> exists k :: 0 <= k < |log| && Header(log[k]).Some? && Header(log[k]).value.id == id
  {
    if log != [] {
      var init := log[..|log| - 1];
      IdsAre(init, id);
      if id in Ids(init) {
        var k :| 0 <= k < |init| && Header(init[k]).Some? && Header(init[k]).value.id == id;
        assert log[k] == init[k];
      }
      if k :| 0 <= k < |log| && Header(log[k]).Some? && Header(log[k]).value.id == id {
        assert k < |init| ==> init[k] == log[k];
      }
    }
  }

  lemma {:induction false} ClosedIs(log: Log, k: nat)
    requires k < |log| && Header(log[k]).Some? && Header(log[k]).value.kind != Frame
    ensures Header(log[k]).value.id in Closed(log)
  {
    if k < |log| - 1 {
      ClosedIs(log[..|log| - 1], k);
    }
  }

  lemma RiseOf(log: Log, p: int, i: nat, k: nat)
    requires Honest(log, p) && k < i == |log| - 1
    ensures Header(log[i]).Some? && Header(log[k]).Some?
    ensures var m, before := Header(log[i]).value, Header(log[k]).value;
      && (before.id == m.id ==> before.kind == Frame)
      && (m.id % 2 == p && First(log, i) ==> m.kind == Frame && (before.id % 2 == p ==> before.id < m.id))
  {
    hide Header, Encode;
    var init, m := log[..i], Header(log[i]).value;
    PrefixOf(log[..k + 1], log, p, 0);
    assert log[..k + 1][k] == log[k] && init[k] == log[k];
    var before := Header(log[k]).value;
    IdsAre(init, m.id);
    IdsAre(init, before.id);
    HighBounds(init, p, before.id);
    if before.kind != Frame {
      ClosedIs(init, k);
    }
    assert forall n | 0 <= n < i :: init[n] == log[n];
  }

  /** On the wire each end's numbers rise: the first frame of one is a FRAME, above every number of
      that end before it; and nothing follows a number's END or RESET. */
  lemma NumbersRise(max: int, moves: seq<Move>, dialer: bool, i: nat, k: nat)
    requires k < i < |This(Run(max, moves), dialer).sent|
    ensures var sent, p := This(Run(max, moves), dialer).sent, Parity(dialer);
      && Header(sent[i]).Some? && Header(sent[k]).Some?
      && (var m, before := Header(sent[i]).value, Header(sent[k]).value;
          && (before.id == m.id ==> before.kind == Frame)
          && (m.id % 2 == p && First(sent, i) ==> m.kind == Frame && (before.id % 2 == p ==> before.id < m.id)))
  {
    hide Honest, Ids, Closed, High, On, Items, Encode, Header, Sends, Tables;
    PairOf(max, moves, dialer);
    var sent, p := This(Run(max, moves), dialer).sent, Parity(dialer);
    PrefixOf(sent[..i + 1], sent, p, 0);
    RiseOf(sent[..i + 1], p, i, k);
    assert forall n | 0 <= n <= i :: sent[..i + 1][n] == sent[n];
  }

  /** At most `PEER_OPEN` of the peer's conversations are in either table. */
  lemma PeerHoldsAtMost(max: int, moves: seq<Move>, dialer: bool)
    ensures |PeerOpen(This(Run(max, moves), dialer).link.open, 1 - Parity(dialer))| <= PEER_OPEN
  {
    hide Numbers, ConvOk, RouteOk, Fifo, Run, This, Far, Incoming, Outgoing;
    PairOf(max, moves, dialer);
  }

  /** The gate on the peer's numbers lets every one in once: the first frame that reaches a
      reader on a number opens a conversation no table or handler has, unless there is no
      room, and then it is reset. Every later one finds it, or is for one let go. */
  lemma EachNumberOpensOnce(max: int, moves: seq<Move>, dialer: bool)
    requires var s := Run(max, moves);
      This(s, dialer).reading && This(s, dialer).holding.None? && Incoming(s, dialer) != []
    ensures var s := Run(max, moves);
      var e, p, h := This(s, dialer), Parity(dialer), Header(Incoming(s, dialer)[0]);
      && h.Some?
      && (var routed := RouteFrame(e.link, h.value, 1 - p).1;
          if h.value.id % 2 == 1 - p && h.value.id !in Ids(e.routed) then
            && h.value.id !in e.convs
            && routed == if |PeerOpen(e.link.open, 1 - p)| < PEER_OPEN then Opened(h.value.id, Body(h.value.body)) else Dropped
          else !routed.Opened? && (Holds(e, h.value.id) ==> h.value.kind == Reset || routed.Deliver?))
  {
    hide Honest, Ids, Closed, High, On, Items, Encode, Header, Sends, Numbers;
    PairOf(max, moves, dialer);
    var s := Run(max, moves);
    var e, p := This(s, dialer), Parity(dialer);
    Taken(e, Far(s, dialer), p, Incoming(s, dialer), Outgoing(s, dialer));
    var m := Header(Incoming(s, dialer)[0]).value;
    TakenFrame(e, p, m);
    assert m.id in e.convs ==> ConvOk(e, m.id);
  }

  /** What a step queues: at most one frame, an END only by `end` and a RESET only by a drop
      or by the reader's refusal. */
  lemma StepQueues(e: Side, p: int, max: int, wireIn: Log, wireOut: Log, act: Action) returns (queued: Option<Msg>)
    requires !e.link.writing ==> e.link.out == []
    ensures var sent := Step(e, p, max, wireIn, wireOut, act).0.sent;
      match queued
      case None => sent == e.sent
      case Some(m) =>
        && sent == e.sent + [Encode(m)]
        && (m.kind == End ==> act == Finish(m.id, End))
        && (m.kind == Reset ==> act == Finish(m.id, Reset) || act == Take)
  {
    hide Encode, Header, Sends;
    var e' := Step(e, p, max, wireIn, wireOut, act).0;
    queued := None;
    match act
    case FirstSend(body) =>
      QueuedAfter(e, e.link.(next := e'.link.next, open := e'.link.open), Out.Send(Encode(Msg(e.link.next, Frame, body))));
      if e'.sent != e.sent { queued := Some(Msg(e.link.next, Frame, body)); }
    case Send(id, body) =>
      QueuedAfter(e, e.link, Out.Send(Encode(Msg(id, Frame, body))));
      if e'.sent != e.sent { queued := Some(Msg(id, Frame, body)); }
    case Finish(id, kind) =>
      QueuedAfter(e, e.link.(open := e'.link.open), Out.Send(Encode(Msg(id, kind, []))));
      if e'.sent != e.sent { queued := Some(Msg(id, kind, [])); }
    case EndLink => QueuedAfter(e, e.link.(ended := true), Close);
    case LinkLost => QueuedAfter(e, e.link.(ended := true, open := map[]), Close);
    case Take =>
      if wireIn != [] {
        match Header(wireIn[0])
        case None => QueuedAfter(e, e.link.(ended := true, open := map[]), Close);
        case Some(m) =>
          var l := RouteFrame(e.link, m, 1 - p).0;
          QueuedAfter(e, l.(out := e.link.out), Out.Send(Encode(Msg(m.id, Reset, []))));
          if e'.sent != e.sent { queued := Some(Msg(m.id, Reset, [])); }
      }
    case Recv(_) =>
    case Hand =>
    case Write =>
    case WriteFails =>
  }

  /** A clean end is the far caller's own: END is put on a conversation only by `end`. */
  lemma {:induction false} EndsAreCalled(max: int, moves: seq<Move>, dialer: bool, id: u32)
    requires Ended in Items(On(This(Run(max, moves), dialer).sent, id))
    ensures Move(dialer, Finish(id, End)) in moves
  {
    hide Honest, Ids, Closed, High, On, Items, Encode, Header, Sends, Numbers, Tables, Step;
    assert Run(max, []) == Init();
    assert Items(On([], id)) == [] by { EmptyLog(id); }
    if moves != [] {
      var init, move := moves[..|moves| - 1], moves[|moves| - 1];
      var s := Run(max, init);
      assert moves == init + [move];
      PairOf(max, init, dialer);
      if move.dialer == dialer {
        assert !This(s, dialer).link.writing ==> This(s, dialer).link.out == [] by { OutWhileWriting(This(s, dialer), Parity(dialer)); }
        var m := StepQueues(This(s, dialer), Parity(dialer), max, Incoming(s, dialer), Outgoing(s, dialer), move.act);
        if m.Some? {
          GrowOn(This(s, dialer).sent, m.value, id);
        }
      }
      if Ended in Items(On(This(s, dialer).sent, id)) {
        EndsAreCalled(max, init, dialer, id);
      }
    }
  }

  lemma OutWhileWriting(e: Side, p: int)
    requires Local(e, p)
    ensures !e.link.writing ==> e.link.out == []
  {
    hide Numbers, ConvOk, RouteOk;
  }

  lemma EmptyLog(id: u32)
    ensures On([], id) == [] && Items([]) == []
  {
  }
}
