/**
 Two ends of one link as a transition system: any interleaving of their conversations'
 sends, ends and reads with their readers and writers, over a FIFO each way.
 */
module TwoEnds {
  import opened Wrappers
  import opened Bytes
  import opened Framing
  import opened Links
  import opened FrameLog

  /** A conversation with a number, at one end: whether its handle is held, its queue, and
      what has been read from it (history). */
  datatype Conv = Conv(held: bool, queue: seq<Item>, read: seq<Item>)

  /** One end. `holding` is the item the reader waits to put in a queue, which keeps that
      queue's sending half alive. `sent` and `routed` are histories: the frames its writer
      was given, and the frames its reader has taken. */
  datatype Side = Side(
    link: Link,
    convs: map<u32, Conv>,
    holding: Option<(u32, Item)>,
    reading: bool,
    sent: Log,
    routed: Log)

  /** What one end may do next; an action its state does not allow changes nothing. */
  datatype Action =
    | FirstSend(body: seq<byte>)          // on a conversation with no number yet
    | Send(id: u32, body: seq<byte>)
    | Finish(id: u32, kind: Kind)         // `end`, or a drop before it
    | Recv(id: u32)
    | EndLink
    | Take                                // the reader takes the next frame off the link
    | Hand                                // the reader puts the item it holds in its queue
    | LinkLost                            // the reader's receive ends or fails
    | Write
    | WriteFails

  /** What a receive comes to. */
  datatype Outcome = Waits | Got(body: seq<byte>) | Eof | WasReset | Aborted

  function Receive(e: Side, id: u32): Outcome
    requires id in e.convs
  {
    var c := e.convs[id];
    if Ended in c.read then Eof
    else if c.queue != [] then
      match c.queue[0]
      case Body(body) => Got(body)
      case Ended => Eof
    else if SenderAlive(e, id) then Waits
    else if e.link.ended then Aborted
    else WasReset
  }

  /** Whether a queue's sending half is alive: in its route, or with the waiting reader. */
  predicate SenderAlive(e: Side, id: u32) {
    (id in e.link.open && e.link.open[id].tx) || (e.holding.Some? && e.holding.value.0 == id)
  }

  /** The end with a link that has queued more; what was queued joins the history. */
  function WithLink(e: Side, l: Link): Side {
    e.(link := l, sent := e.sent + if |e.link.out| <= |l.out| then Sends(l.out[|e.link.out|..]) else [])
  }

  predicate Holds(e: Side, id: u32) {
    id in e.convs && e.convs[id].held
  }

  /** One end's step. `p` is the parity of its own numbers, `max` the link's frame limit;
      `wireIn` and `wireOut` are the frames in transit each way. */
  function Step(e: Side, p: int, max: int, wireIn: Log, wireOut: Log, act: Action): (Side, Log, Log) {
    var still := (e, wireIn, wireOut);
    match act
    case FirstSend(body) =>
      if HEADER + |body| > max then still
      else
        var (l, _) := Put(e.link, None, Frame, body);
        if l.next == e.link.next then still
        else (WithLink(e, l).(convs := e.convs[e.link.next := Conv(true, [], [])]), wireIn, wireOut)
    case Send(id, body) =>
      if HEADER + |body| > max || !Holds(e, id) then still
      else (WithLink(e, Put(e.link, Some(id), Frame, body).0), wireIn, wireOut)
    case Finish(id, kind) =>
      if kind == Frame || !Holds(e, id) then still
      else
        var c := e.convs[id].(held := false, queue := []);
        (WithLink(e, Links.Finish(e.link, Some(id), kind)).(convs := e.convs[id := c]), wireIn, wireOut)
    case Recv(id) =>
      if !Holds(e, id) || Ended in e.convs[id].read || e.convs[id].queue == [] then still
      else
        var c := e.convs[id];
        (e.(convs := e.convs[id := c.(queue := c.queue[1..], read := c.read + [c.queue[0]])]), wireIn, wireOut)
    case EndLink => (WithLink(e, Links.EndLink(e.link)), wireIn, wireOut)
    case Take =>
      if !e.reading || e.holding.Some? || wireIn == [] then still
      else (TakeFrame(e.(routed := e.routed + [wireIn[0]]), p, Header(wireIn[0])), wireIn[1..], wireOut)
    case Hand =>
      if e.holding.None? then still
      else
        var (id, item) := e.holding.value;
        if !Holds(e, id) then (e.(holding := None), wireIn, wireOut)
        else if |e.convs[id].queue| >= QUEUE then still
        else
          var c := e.convs[id];
          (e.(holding := None, convs := e.convs[id := c.(queue := c.queue + [item])]), wireIn, wireOut)
    case LinkLost =>
      if !e.reading || e.holding.Some? then still else (ReaderEnds(e), wireIn, wireOut)
    case Write =>
      if !e.link.writing || e.link.out == [] then still
      else
        (match e.link.out[0]
         case Send(f) => (e.(link := e.link.(out := e.link.out[1..])), wireIn, wireOut + [f])
         case Close => (WriterStops(e), wireIn, wireOut))
    case WriteFails => (WriterStops(e), wireIn, wireOut)
  }

  /** The reader with a frame: one with no header ends the link. */
  function TakeFrame(e: Side, p: int, m: Option<Msg>): Side {
    if m.None? then ReaderEnds(e)
    else
      var (l, routed) := RouteFrame(e.link, m.value, 1 - p);
      match routed
      case Deliver(id, item) => WithLink(e, l).(holding := Some((id, item)))
      case Opened(id, first) => WithLink(e, l).(convs := e.convs[id := Conv(true, [first], [])])
      case Dropped => WithLink(e, l)
  }

  function ReaderEnds(e: Side): Side {
    WithLink(e, LinkEnded(e.link)).(reading := false)
  }

  function WriterStops(e: Side): Side {
    e.(link := e.link.(writing := false, out := []))
  }

  /** The dialer's end, with odd numbers, the acceptor's, and the frames in transit. */
  datatype System = System(dialer: Side, acceptor: Side, toAcceptor: Log, toDialer: Log)

  datatype Move = Move(dialer: bool, act: Action)

  function StartSide(dialed: bool): Side {
    Side(Start(dialed), map[], None, true, [], [])
  }

  function Init(): System {
    System(StartSide(true), StartSide(false), [], [])
  }

  function Next(s: System, max: int, move: Move): System {
    if move.dialer then
      var (e, i, o) := Step(s.dialer, 1, max, s.toDialer, s.toAcceptor, move.act);
      System(e, s.acceptor, o, i)
    else
      var (e, i, o) := Step(s.acceptor, 0, max, s.toAcceptor, s.toDialer, move.act);
      System(s.dialer, e, i, o)
  }

  /** The state after `moves`. */
  function Run(max: int, moves: seq<Move>): System {
    if moves == [] then Init() else Next(Run(max, moves[..|moves| - 1]), max, moves[|moves| - 1])
  }

  // The invariant.

  function Pending(e: Side, id: u32): seq<Item> {
    if e.holding.Some? && e.holding.value.0 == id then [e.holding.value.1] else []
  }

  /** A conversation against what the reader has taken: while it is held, its reads, its
      queue and the item in hand are all of it, and its route is there until the peer closes it. */
  ghost predicate ConvOk(e: Side, id: u32)
    requires id in e.convs
  {
    var c, items := e.convs[id], Items(On(e.routed, id));
    if c.held then
      && items == c.read + c.queue + Pending(e, id)
      && (e.reading ==> id in e.link.open && (e.link.open[id].tx <==> id !in Closed(e.routed)))
    else c.read <= items
  }

  ghost predicate RouteOk(e: Side, id: u32)
    requires id in e.link.open
  {
    var r := e.link.open[id];
    id in e.convs && e.reading && r.done == !e.convs[id].held && (r.done ==> r.tx)
  }

  /** The numbers of both histories against the table. */
  ghost predicate Numbers(e: Side, p: int) {
    var l := e.link;
    && l.next % 2 == p && l.next > 0
    && Honest(e.sent, p) && Honest(e.routed, 1 - p) && High(e.routed, 1 - p) == l.peerHigh
    && (forall id | id in Ids(e.sent) :: if id % 2 == p then id in e.convs else id in Ids(e.routed))
    && (forall id | id in e.convs :: if id % 2 == p then id < l.next && (l.writing ==> id in Ids(e.sent)) else id in Ids(e.routed))
    && (forall id | id in Ids(e.routed) && id % 2 == p :: id < l.next)
    && (forall id | id in e.convs && e.convs[id].held :: id !in Closed(e.sent))
  }

  ghost predicate Tables(e: Side, p: int) {
    && (forall id | id in e.convs :: ConvOk(e, id))
    && (forall id | id in e.link.open :: RouteOk(e, id))
    && (e.holding.Some? ==> e.holding.value.0 in e.convs && e.reading)
    && (!e.reading ==> e.link.ended)
    && |PeerOpen(e.link.open, 1 - p)| <= PEER_OPEN
    && (!e.link.writing ==> e.link.out == [])
  }

  /** What one end keeps by itself. */
  ghost predicate Local(e: Side, p: int) {
    (p == 0 || p == 1) && Numbers(e, p) && Tables(e, p)
  }

  /** What one end queued is what the other has taken, then what is in transit, then what the
      writer still holds; once the writer stops, the rest is lost. */
  ghost predicate Fifo(e: Side, wire: Log, taken: Log) {
    if e.link.writing then e.sent == taken + wire + Sends(e.link.out) else taken + wire <= e.sent
  }

  ghost predicate Pair(e: Side, peer: Side, p: int, wireIn: Log, wireOut: Log) {
    && Local(e, p) && Local(peer, 1 - p)
    && Fifo(e, wireOut, peer.routed) && Fifo(peer, wireIn, e.routed)
  }

  ghost predicate Inv(s: System) {
    Pair(s.dialer, s.acceptor, 1, s.toDialer, s.toAcceptor)
  }

  // Each action keeps it: first the histories, then the tables, then the two together.

  function Queues(l: Link, m: Msg): Log {
    if l.writing then [Encode(m)] else []
  }

  lemma QueuedAfter(e: Side, l: Link, o: Out)
    requires !e.link.writing ==> e.link.out == []
    requires l.writing == e.link.writing && l.out == e.link.out
    ensures WithLink(e, Queued(l, o)).sent == e.sent + if l.writing && o.Send? then [o.frame] else []
    ensures WithLink(e, l).sent == e.sent
  {
    assert l.out[|e.link.out|..] == [];
    if l.writing {
      assert (l.out + [o])[|l.out|..] == [o];
      SendsAppend(l.out, [o]);
    }
  }

  lemma QueuedIsSent(e: Side, l: Link, o: Out, wire: Log, taken: Log)
    requires Fifo(e, wire, taken) && (!e.link.writing ==> e.link.out == [])
    requires l.writing == e.link.writing && l.out == e.link.out
    ensures Fifo(WithLink(e, Queued(l, o)), wire, taken)
    ensures WithLink(e, Queued(l, o)).sent == e.sent + if l.writing && o.Send? then [o.frame] else []
    ensures WithLink(e, l).sent == e.sent
  {
    QueuedAfter(e, l, o);
    if l.writing {
      SendsAppend(l.out, [o]);
    }
  }

  /** A new number, and its first frame when the writer takes it. */
  lemma NumberTaken(e: Side, e': Side, p: int, m: Msg)
    requires Numbers(e, p) && m.kind == Frame && m.id == e.link.next <= MAX_U32 - 2
    requires e'.sent == e.sent + Queues(e.link, m) && e'.routed == e.routed
    requires e'.convs.Keys == e.convs.Keys + {m.id} && (forall id | id in e.convs :: e'.convs[id].held == e.convs[id].held)
    requires e'.link.next == m.id + 2 && e'.link.peerHigh == e.link.peerHigh && e'.link.writing == e.link.writing
    ensures m.id !in e.convs && m.id !in Ids(e.routed) && Numbers(e', p)
  {
    hide Honest, Ids, Closed, High, On, Items, Encode, Header, Sends;
    HighBounds(e.sent, p, m.id);
    assert High(e.sent, p) < m.id;
    assert m.id !in e.convs;
    assert m.id !in Ids(e.sent) && m.id !in Ids(e.routed);
    if e.link.writing {
      Grow(e.sent, m, p);
    } else {
      assert e'.sent == e.sent;
    }
  }

  /** A frame, END or RESET on a conversation this end holds, or will no longer. */
  lemma NumberSent(e: Side, e': Side, p: int, m: Msg)
    requires Numbers(e, p) && Holds(e, m.id)
    requires e'.sent == e.sent || (e.link.writing && e'.sent == e.sent + [Encode(m)])
    requires e'.convs.Keys == e.convs.Keys && (m.kind != Frame ==> !e'.convs[m.id].held)
    requires forall id | id in e.convs && id != m.id :: e'.convs[id].held == e.convs[id].held
    requires e'.routed == e.routed && e'.link.next == e.link.next
    requires e'.link.peerHigh == e.link.peerHigh && e'.link.writing == e.link.writing
    ensures Numbers(e', p)
  {
    hide Honest, Ids, Closed, High, On, Items, Encode, Header, Sends;
    Grow(e.sent, m, p);
  }

  /** A step that leaves routes, queues and the reader as they were. */
  lemma TablesSame(e: Side, e': Side, p: int)
    requires Tables(e, p)
    requires e'.convs == e.convs && e'.holding == e.holding && e'.reading == e.reading && e'.routed == e.routed
    requires e'.link.open == e.link.open && (e.link.ended ==> e'.link.ended)
    requires !e'.link.writing ==> e'.link.out == []
    ensures Tables(e', p)
  {
    hide Honest, Ids, Closed, High, On, Items, Encode, Header, Sends;
    forall id | id in e'.convs ensures ConvOk(e', id) {
      assert ConvOk(e, id);
    }
    forall id | id in e'.link.open ensures RouteOk(e', id) {
      assert RouteOk(e, id);
    }
  }

  lemma TablesOpened(e: Side, e': Side, p: int, id: u32)
    requires Tables(e, p) && id !in e.convs && id !in Ids(e.routed) && id % 2 == p && !e.link.ended
    requires e'.convs == e.convs[id := Conv(true, [], [])] && e'.link.open == e.link.open[id := Route(true, false)]
    requires e'.holding == e.holding && e'.reading == e.reading && e'.routed == e.routed
    requires e'.link.writing == e.link.writing && !e'.link.ended && (!e'.link.writing ==> e'.link.out == [])
    ensures Tables(e', p)
  {
    hide Honest, Ids, Closed, High, On, Items, Encode, Header, Sends, ConvOk, RouteOk;
    assert PeerOpen(e'.link.open, 1 - p) == PeerOpen(e.link.open, 1 - p);
    forall other | other in e'.convs ensures ConvOk(e', other) {
      if other != id {
        assert ConvOk(e, other);
        ConvBeside(e, e', id, other);
      } else {
        ConvOpened(e, e', p, id);
      }
    }
    forall other | other in e'.link.open ensures RouteOk(e', other) {
      if other != id { assert RouteOk(e, other); }
      RouteOpened(e, e', id, other);
    }
  }

  lemma ConvBeside(e: Side, e': Side, id: u32, other: u32)
    requires other in e.convs && other != id && ConvOk(e, other)
    requires e'.convs == e.convs[id := Conv(true, [], [])] && e'.link.open == e.link.open[id := Route(true, false)]
    requires e'.holding == e.holding && e'.reading == e.reading && e'.routed == e.routed
    ensures ConvOk(e', other)
  {
    hide Closed, On, Items;
  }

  lemma ConvOpened(e: Side, e': Side, p: int, id: u32)
    requires Tables(e, p) && id !in e.convs && id !in Ids(e.routed) && id % 2 == p && !e.link.ended
    requires e'.convs == e.convs[id := Conv(true, [], [])] && e'.link.open == e.link.open[id := Route(true, false)]
    requires e'.holding == e.holding && e'.reading == e.reading && e'.routed == e.routed
    ensures ConvOk(e', id)
  {
    hide Honest, Ids, Closed, High, On, Encode, Header, Sends;
    HighBounds(e.routed, p, id);
  }

  lemma RouteOpened(e: Side, e': Side, id: u32, other: u32)
    requires other != id ==> other in e.link.open && RouteOk(e, other)
    requires e'.convs == e.convs[id := Conv(true, [], [])] && e'.link.open == e.link.open[id := Route(true, false)]
    requires e'.reading == e.reading && (other == id ==> e.reading)
    ensures other in e'.link.open && RouteOk(e', other)
  {
  }

  lemma TablesFinished(e: Side, e': Side, p: int, id: u32)
    requires Tables(e, p) && Holds(e, id)
    requires e'.convs == e.convs[id := e.convs[id].(held := false, queue := [])]
    requires e'.link.open == e.link.open - {id} ||
             (id in e.link.open && e.link.open[id].tx && e'.link.open == e.link.open[id := Route(true, true)])
    requires e'.holding == e.holding && e'.reading == e.reading && e'.routed == e.routed
    requires e'.link.writing == e.link.writing && e'.link.ended == e.link.ended && (!e'.link.writing ==> e'.link.out == [])
    ensures Tables(e', p)
  {
    hide Honest, Ids, Closed, High, On, Items, Encode, Header, Sends, ConvOk, RouteOk;
    assert PeerOpen(e'.link.open, 1 - p) <= PeerOpen(e.link.open, 1 - p);
    SubsetSize(PeerOpen(e'.link.open, 1 - p), PeerOpen(e.link.open, 1 - p));
    forall other | other in e'.convs ensures ConvOk(e', other) {
      assert ConvOk(e, other);
      ConvFinished(e, e', id, other);
    }
    forall other | other in e'.link.open ensures RouteOk(e', other) {
      assert RouteOk(e, other);
      RouteFinished(e, e', id, other);
    }
  }

  lemma ConvFinished(e: Side, e': Side, id: u32, other: u32)
    requires Holds(e, id) && other in e.convs && ConvOk(e, other)
    requires e'.convs == e.convs[id := e.convs[id].(held := false, queue := [])]
    requires other != id ==> (other in e'.link.open <==> other in e.link.open)
    requires other != id && other in e.link.open ==> e'.link.open[other] == e.link.open[other]
    requires e'.holding == e.holding && e'.reading == e.reading && e'.routed == e.routed
    ensures ConvOk(e', other)
  {
    hide Closed, On, Items;
    var c := e.convs[id];
    assert other == id ==> c.read <= c.read + c.queue + Pending(e, id);
  }

  lemma RouteFinished(e: Side, e': Side, id: u32, other: u32)
    requires other in e.link.open && RouteOk(e, other) && Holds(e, id)
    requires e'.convs == e.convs[id := e.convs[id].(held := false, queue := [])] && e'.reading == e.reading
    requires other in e'.link.open
    requires if other == id then e'.link.open[id] == Route(true, true) else e'.link.open[other] == e.link.open[other]
    ensures RouteOk(e', other)
  {
  }

  lemma SubsetSize<T>(a: set<T>, b: set<T>)
    requires a <= b
    ensures |a| <= |b|
  {
    assert b == a + (b - a);
  }

  lemma FirstSendKeeps(e: Side, peer: Side, p: int, wireIn: Log, wireOut: Log, body: seq<byte>)
    requires Pair(e, peer, p, wireIn, wireOut)
    requires !e.link.ended && e.link.next <= MAX_U32 - 2
    ensures var id := e.link.next;
      var e' := WithLink(e, Put(e.link, None, Frame, body).0).(convs := e.convs[id := Conv(true, [], [])]);
      id !in e.convs && Pair(e', peer, p, wireIn, wireOut)
  {
    hide Honest, Ids, Closed, High, On, Items, Encode, Header, Sends, ConvOk, RouteOk;
    var id, m := e.link.next, Msg(e.link.next, Frame, body);
    var e' := WithLink(e, Put(e.link, None, Frame, body).0).(convs := e.convs[id := Conv(true, [], [])]);
    QueuedIsSent(e, e.link.(next := id + 2, open := e.link.open[id := Route(true, false)]), Out.Send(Encode(m)), wireOut, peer.routed);
    NumberTaken(e, e', p, m);
    TablesOpened(e, e', p, id);
  }

  lemma SendKeeps(e: Side, peer: Side, p: int, wireIn: Log, wireOut: Log, id: u32, body: seq<byte>)
    requires Pair(e, peer, p, wireIn, wireOut) && Holds(e, id)
    ensures Pair(WithLink(e, Put(e.link, Some(id), Frame, body).0), peer, p, wireIn, wireOut)
  {
    hide Honest, Ids, Closed, High, On, Items, Encode, Header, Sends, ConvOk, RouteOk;
    var m := Msg(id, Frame, body);
    var e' := WithLink(e, Put(e.link, Some(id), Frame, body).0);
    QueuedIsSent(e, e.link, Out.Send(Encode(m)), wireOut, peer.routed);
    NumberSent(e, e', p, m);
    TablesSame(e, e', p);
  }

  /** What `Links.Finish` queues and what becomes of the route. */
  lemma FinishShape(e: Side, id: u32, kind: Kind, wire: Log, taken: Log)
    requires Fifo(e, wire, taken) && (!e.link.writing ==> e.link.out == []) && kind != Frame
    requires id in e.link.open && e.link.open[id].done ==> e.link.open[id].tx
    ensures var l, e' := Links.Finish(e.link, Some(id), kind), WithLink(e, Links.Finish(e.link, Some(id), kind));
      && Fifo(e', wire, taken)
      && (e'.sent == e.sent || (e.link.writing && e'.sent == e.sent + [Encode(Msg(id, kind, []))]))
      && (l.open == e.link.open - {id} ||
          (id in e.link.open && e.link.open[id].tx && l.open == e.link.open[id := Route(true, true)]))
      && l == e.link.(open := l.open, out := l.out) && (!l.writing ==> l.out == [])
  {
    hide Links.Finish, Queued, Encode, Sends;
    var l := Links.Finish(e.link, Some(id), kind);
    FinishIs(e.link, id, kind);
    QueuedIsSent(e, e.link.(open := l.open), Out.Send(Marker(id, kind)), wire, taken);
    QueuedLink(e.link.(open := l.open), Out.Send(Marker(id, kind)));
    if e.link.ended { StillFifo(e, e.link.(open := l.open), wire, taken); }
  }

  /** What finishing does to a link: its marker queued, unless the link has ended, and its route gone
      or done. */
  lemma FinishIs(k: Link, id: u32, kind: Kind)
    requires kind != Frame && (id in k.open && k.open[id].done ==> k.open[id].tx)
    ensures var l := Links.Finish(k, Some(id), kind);
      && l == (if k.ended then k.(open := l.open) else Queued(k.(open := l.open), Out.Send(Marker(id, kind))))
      && (l.open == k.open - {id} || (id in k.open && k.open[id].tx && l.open == k.open[id := Route(true, true)]))
  {
    if id !in k.open {
      assert k.open - {id} == k.open;
    }
  }

  lemma QueuedLink(k: Link, o: Out)
    ensures Queued(k, o) == k.(out := Queued(k, o).out) && (!k.writing ==> Queued(k, o) == k)
  {
  }

  lemma StillFifo(e: Side, l: Link, wire: Log, taken: Log)
    requires Fifo(e, wire, taken) && l.writing == e.link.writing && l.out == e.link.out && (!e.link.writing ==> e.link.out == [])
    ensures Fifo(WithLink(e, l), wire, taken) && WithLink(e, l).sent == e.sent
  {
    assert l.out[|e.link.out|..] == [];
  }

  lemma FinishLocal(e: Side, e': Side, p: int, id: u32, kind: Kind)
    requires Local(e, p) && Holds(e, id) && kind != Frame
    requires e' == e.(link := e'.link, sent := e'.sent, convs := e.convs[id := e.convs[id].(held := false, queue := [])])
    requires e'.link == e.link.(open := e'.link.open, out := e'.link.out) && (!e'.link.writing ==> e'.link.out == [])
    requires e'.sent == e.sent || (e.link.writing && e'.sent == e.sent + [Encode(Msg(id, kind, []))])
    requires e'.link.open == e.link.open - {id} ||
             (id in e.link.open && e.link.open[id].tx && e'.link.open == e.link.open[id := Route(true, true)])
    ensures Local(e', p)
  {
    hide Honest, Ids, Closed, High, On, Items, Encode, Header, Sends;
    NumberSent(e, e', p, Msg(id, kind, []));
    TablesFinished(e, e', p, id);
  }

  lemma FinishKeeps(e: Side, peer: Side, p: int, wireIn: Log, wireOut: Log, id: u32, kind: Kind)
    requires Pair(e, peer, p, wireIn, wireOut) && Holds(e, id) && kind != Frame
    ensures var c := e.convs[id].(held := false, queue := []);
      Pair(WithLink(e, Links.Finish(e.link, Some(id), kind)).(convs := e.convs[id := c]), peer, p, wireIn, wireOut)
  {
    hide Honest, Ids, Closed, High, On, Items, Encode, Header, Sends, ConvOk, Numbers;
    assert id in e.link.open ==> RouteOk(e, id);
    FinishShape(e, id, kind, wireOut, peer.routed);
    var c := e.convs[id].(held := false, queue := []);
    var e' := WithLink(e, Links.Finish(e.link, Some(id), kind)).(convs := e.convs[id := c]);
    FinishLocal(e, e', p, id, kind);
  }

  /** A frame the reader takes, opening a conversation or not. */
  lemma NumberRouted(e: Side, e': Side, p: int, m: Msg)
    requires Numbers(e, p) && Honest(e.routed + [Encode(m)], 1 - p) && (m.id % 2 == p ==> m.id < e.link.next)
    requires e'.routed == e.routed + [Encode(m)] && e'.sent == e.sent
    requires e'.convs == e.convs ||
             (m.id !in Ids(e.sent) && m.id % 2 != p && e'.convs.Keys == e.convs.Keys + {m.id} &&
              forall id | id in e.convs :: e'.convs[id].held == e.convs[id].held)
    requires e'.link.next == e.link.next && e'.link.writing == e.link.writing
    requires e'.link.peerHigh == if m.id % 2 == 1 - p && m.id > e.link.peerHigh then m.id else e.link.peerHigh
    ensures Numbers(e', p)
  {
    hide Honest, Ids, Closed, High, On, Items, Encode, Header, Sends;
    Grow(e.routed, m, 1 - p);
    HighBounds(e.sent, p, m.id);
  }

  /** One it refuses, and the RESET that says so. */
  lemma NumberRefused(e: Side, e': Side, p: int, m: Msg)
    requires Numbers(e, p) && m.id % 2 != p && m.id in Ids(e.routed) && m.id !in Ids(e.sent)
    requires e'.sent == e.sent + Queues(e.link, Msg(m.id, Reset, [])) && e'.routed == e.routed && e'.convs == e.convs
    requires m.id !in e.convs
    requires e'.link.next == e.link.next && e'.link.peerHigh == e.link.peerHigh && e'.link.writing == e.link.writing
    ensures Numbers(e', p)
  {
    hide Honest, Ids, Closed, High, On, Items, Encode, Header, Sends;
    HighBounds(e.sent, p, m.id);
    if e.link.writing {
      Grow(e.sent, Msg(m.id, Reset, []), p);
    } else {
      assert e'.sent == e.sent;
    }
  }

  ghost predicate DeliveredBy(e: Side, e': Side, m: Msg) {
    && e.reading && e.holding.None? && m.id in e.link.open && e.link.open[m.id].tx
    && e' == e.(link := e'.link, holding := e'.holding, routed := e.routed + [Encode(m)])
    && e'.link == e.link.(open := e'.link.open)
    && e'.link.open == (
         if m.kind == Frame then e.link.open
         else if e.link.open[m.id].done then e.link.open - {m.id}
         else e.link.open[m.id := Route(false, false)])
    && e'.holding == if m.kind == Reset then None else Some((m.id, if m.kind == Frame then Body(m.body) else Ended))
  }

  lemma ConvDelivered(e: Side, e': Side, m: Msg, id: u32)
    requires DeliveredBy(e, e', m) && RouteOk(e, m.id) && id in e.convs && ConvOk(e, id)
    ensures ConvOk(e', id)
  {
    hide Honest, Ids, Closed, High, On, Items, Encode, Header, Sends;
    Grow(e.routed, m, 0);
    GrowOn(e.routed, m, id);
  }

  lemma TablesDelivered(e: Side, e': Side, p: int, m: Msg)
    requires Tables(e, p) && DeliveredBy(e, e', m)
    ensures Tables(e', p)
  {
    hide Honest, Ids, Closed, High, On, Items, Encode, Header, Sends;
    var before, after := PeerOpen(e.link.open, 1 - p), PeerOpen(e'.link.open, 1 - p);
    assert after <= before;
    SubsetSize(after, before);
    assert RouteOk(e, m.id);
    forall id | id in e'.convs ensures ConvOk(e', id) {
      assert ConvOk(e, id);
      ConvDelivered(e, e', m, id);
    }
    forall id | id in e'.link.open ensures RouteOk(e', id) {
      assert RouteOk(e, id);
    }
  }

  lemma TablesDropped(e: Side, e': Side, p: int, m: Msg)
    requires Tables(e, p) && e.reading && e.holding.None? && m.id !in e.link.open
    requires e' == e.(link := e'.link, sent := e'.sent, routed := e.routed + [Encode(m)])
    requires e'.link == e.link.(peerHigh := e'.link.peerHigh, out := e'.link.out) && (!e'.link.writing ==> e'.link.out == [])
    ensures Tables(e', p)
  {
    hide Honest, Ids, Closed, High, On, Items, Encode, Header, Sends;
    Grow(e.routed, m, p);
    forall id | id in e'.convs ensures ConvOk(e', id) {
      assert ConvOk(e, id);
      GrowOn(e.routed, m, id);
    }
    forall id | id in e'.link.open ensures RouteOk(e', id) {
      assert RouteOk(e, id);
    }
  }

  ghost predicate OpenedBy(e: Side, e': Side, m: Msg) {
    && e.reading && e.holding.None? && m.kind == Frame
    && m.id !in e.link.open && m.id !in e.convs && m.id !in Ids(e.routed)
    && e' == e.(link := e'.link, convs := e.convs[m.id := Conv(true, [Body(m.body)], [])], routed := e.routed + [Encode(m)])
    && e'.link == e.link.(peerHigh := m.id, open := e.link.open[m.id := Route(true, false)])
  }

  lemma ConvPeerOpened(e: Side, e': Side, m: Msg, id: u32)
    requires OpenedBy(e, e', m) && (if id in e.convs then ConvOk(e, id) else id == m.id)
    ensures ConvOk(e', id)
  {
    hide Honest, Ids, Closed, High, On, Encode, Header, Sends;
    Grow(e.routed, m, 0);
    GrowOn(e.routed, m, id);
    HighBounds(e.routed, 0, m.id);
  }

  lemma TablesPeerOpened(e: Side, e': Side, p: int, m: Msg)
    requires Tables(e, p) && OpenedBy(e, e', m) && |PeerOpen(e.link.open, 1 - p)| < PEER_OPEN
    ensures Tables(e', p)
  {
    hide Honest, Ids, Closed, High, On, Items, Encode, Header, Sends;
    var before, after := PeerOpen(e.link.open, 1 - p), PeerOpen(e'.link.open, 1 - p);
    assert after <= before + {m.id};
    SubsetSize(after, before + {m.id});
    forall id | id in e'.convs ensures ConvOk(e', id) {
      if id in e.convs {
        assert ConvOk(e, id);
      }
      ConvPeerOpened(e, e', m, id);
    }
    forall id | id in e'.link.open ensures RouteOk(e', id) {
      if id != m.id {
        assert RouteOk(e, id);
      }
    }
  }

  /** A peer uses this end's numbers only once they have reached it. */
  lemma OwnNumbersCameFromHere(e: Side, peer: Side, p: int, routed: Log, id: u32)
    requires Local(e, p) && Local(peer, 1 - p) && routed <= peer.sent && peer.routed <= e.sent
    requires id in Ids(routed) && id % 2 == p
    ensures id < e.link.next
  {
    hide Honest, Ids, Closed, High, On, Items, Encode, Header, Sends, ConvOk, RouteOk, Tables;
    PrefixOf(routed, peer.sent, 1 - p, id);
    assert id in Ids(peer.routed);
    PrefixOf(peer.routed, e.sent, p, id);
  }

  lemma FifoPrefix(e: Side, wire: Log, taken: Log)
    requires Fifo(e, wire, taken)
    ensures taken + wire <= e.sent && taken <= e.sent
  {
    assert taken <= taken + wire;
  }

  lemma LastFrame(log: Log, f: seq<byte>, p: int)
    requires Honest(log + [f], p)
    ensures Header(f).Some? && f == Encode(Header(f).value)
  {
    assert (log + [f])[|log|] == f;
    HeaderInvertsEncode(Header(f).value, f);
  }

  /** The frame a reader takes off the link is well formed, and its peer's history says so. */
  lemma Taken(e: Side, peer: Side, p: int, wireIn: Log, wireOut: Log)
    requires Pair(e, peer, p, wireIn, wireOut) && wireIn != []
    ensures var h := Header(wireIn[0]);
      && h.Some? && wireIn[0] == Encode(h.value)
      && Honest(e.routed + [wireIn[0]], 1 - p)
      && (h.value.id % 2 == p ==> h.value.id < e.link.next)
      && Fifo(peer, wireIn[1..], e.routed + [wireIn[0]])
  {
    hide Honest, Ids, Closed, High, On, Items, Encode, Header, Sends;
    var f := wireIn[0];
    var routed := e.routed + [f];
    assert e.routed + wireIn == routed + wireIn[1..];
    FifoPrefix(peer, wireIn[1..], routed);
    FifoPrefix(e, wireOut, peer.routed);
    PrefixOf(routed, peer.sent, 1 - p, 0);
    LastFrame(e.routed, f, 1 - p);
    var m := Header(f).value;
    Grow(e.routed, m, p);
    if m.id % 2 == p {
      OwnNumbersCameFromHere(e, peer, p, routed, m.id);
    }
  }

  /** An honest peer's first frame on a number is a FRAME above every one before it, so the
      gate never drops it: it opens a conversation, or is reset for want of room; and a
      number opens once. A frame on an open conversation finds its queue there. */
  lemma TakenFrame(e: Side, p: int, m: Msg)
    requires Local(e, p) && e.reading && Honest(e.routed + [Encode(m)], 1 - p)
    ensures m.id % 2 == 1 - p && m.id !in Ids(e.routed) ==>
        && m.kind == Frame && m.id !in e.link.open && m.id !in e.convs && m.id !in Ids(e.sent)
        && RouteFrame(e.link, m, 1 - p) ==
           if |PeerOpen(e.link.open, 1 - p)| < PEER_OPEN
           then (e.link.(peerHigh := m.id, open := e.link.open[m.id := Route(true, false)]), Opened(m.id, Body(m.body)))
           else (Queued(e.link.(peerHigh := m.id), Out.Send(Marker(m.id, Reset))), Dropped)
    ensures m.id in e.link.open ==> e.link.open[m.id].tx
    ensures (m.id % 2 == p || m.id in Ids(e.routed)) && m.id !in e.link.open ==>
        RouteFrame(e.link, m, 1 - p) == (e.link, Dropped) && (m.id % 2 == p || m.id <= e.link.peerHigh)
  {
    hide Honest, Ids, Closed, High, On, Items, Encode, Header, Sends;
    Grow(e.routed, m, 1 - p);
    HighBounds(e.routed, 1 - p, m.id);
    if m.id in e.link.open {
      assert RouteOk(e, m.id);
      assert ConvOk(e, m.id);
    }
  }

  ghost predicate TakesTo(e: Side, e': Side, p: int, m: Msg) {
    && (m.id % 2 == p ==> m.id < e.link.next)
    && e' == TakeFrame(e.(routed := e.routed + [Encode(m)]), p, Some(m))
    && e'.sent == e.sent + if RouteFrame(e.link, m, 1 - p).0.out != e.link.out then [Marker(m.id, Reset)] else []
  }

  /** A peer's conversation that is open is no newer than its highest number. */
  lemma OpenIsKnown(e: Side, p: int, id: u32)
    requires Local(e, p) && id in e.link.open && id % 2 == 1 - p
    ensures id <= e.link.peerHigh
  {
    hide Honest, Ids, Closed, High, On, Items, ConvOk;
    assert RouteOk(e, id);
    HighBounds(e.routed, 1 - p, id);
  }

  lemma TakeOnOpen(e: Side, e': Side, p: int, m: Msg)
    requires Local(e, p) && e.reading && e.holding.None? && Honest(e.routed + [Encode(m)], 1 - p)
    requires TakesTo(e, e', p, m) && m.id in e.link.open
    ensures Local(e', p)
  {
    hide Honest, Ids, Closed, High, On, Items, Encode, Header, Sends, ConvOk, RouteOk;
    TakenFrame(e, p, m);
    assert e'.sent == e.sent;
    assert DeliveredBy(e, e', m);
    TablesDelivered(e, e', p, m);
    if m.id % 2 == 1 - p { OpenIsKnown(e, p, m.id); }
    NumberRouted(e, e', p, m);
  }

  lemma TakeStale(e: Side, e': Side, p: int, m: Msg)
    requires Local(e, p) && e.reading && e.holding.None? && Honest(e.routed + [Encode(m)], 1 - p)
    requires TakesTo(e, e', p, m) && m.id !in e.link.open && (m.id % 2 == p || m.id in Ids(e.routed))
    ensures Local(e', p)
  {
    hide Honest, Ids, Closed, High, On, Items, Encode, Header, Sends;
    TakenFrame(e, p, m);
    assert e'.sent == e.sent;
    TablesDropped(e, e', p, m);
    NumberRouted(e, e', p, m);
  }

  lemma TakeFirst(e: Side, e': Side, p: int, m: Msg)
    requires Local(e, p) && e.reading && e.holding.None? && Honest(e.routed + [Encode(m)], 1 - p)
    requires TakesTo(e, e', p, m) && m.id % 2 == 1 - p && m.id !in Ids(e.routed)
    requires |PeerOpen(e.link.open, 1 - p)| < PEER_OPEN
    ensures Local(e', p)
  {
    hide Honest, Ids, Closed, High, On, Items, Encode, Header, Sends;
    TakenFrame(e, p, m);
    assert e'.sent == e.sent;
    assert OpenedBy(e, e', m);
    TablesPeerOpened(e, e', p, m);
    Grow(e.routed, m, 1 - p);
    NumberRouted(e, e', p, m);
  }

  lemma TakeRefused(e: Side, e': Side, p: int, m: Msg)
    requires Local(e, p) && e.reading && e.holding.None? && Honest(e.routed + [Encode(m)], 1 - p)
    requires TakesTo(e, e', p, m) && m.id % 2 == 1 - p && m.id !in Ids(e.routed)
    requires |PeerOpen(e.link.open, 1 - p)| >= PEER_OPEN
    ensures Local(e', p)
  {
    hide Honest, Ids, Closed, High, On, Items, Encode, Header, Sends;
    TakenFrame(e, p, m);
    TablesDropped(e, e', p, m);
    Grow(e.routed, m, 1 - p);
    var mid := e'.(sent := e.sent);
    NumberRouted(e, mid, p, m);
    NumberRefused(mid, e', p, m);
  }

  lemma TakeKeeps(e: Side, peer: Side, p: int, wireIn: Log, wireOut: Log)
    requires Pair(e, peer, p, wireIn, wireOut) && e.reading && e.holding.None? && wireIn != []
    ensures Pair(TakeFrame(e.(routed := e.routed + [wireIn[0]]), p, Header(wireIn[0])), peer, p, wireIn[1..], wireOut)
  {
    hide Honest, Ids, Closed, High, On, Items, Encode, Header, Sends, ConvOk, RouteOk, Numbers;
    Taken(e, peer, p, wireIn, wireOut);
    var m := Header(wireIn[0]).value;
    var taken := e.(routed := e.routed + [wireIn[0]]);
    var e' := TakeFrame(taken, p, Some(m));
    TakenFrame(e, p, m);
    TakeQueues(e, p, m, wireOut, peer.routed);
    if m.id in e.link.open {
      TakeOnOpen(e, e', p, m);
    } else if m.id % 2 == p || m.id in Ids(e.routed) {
      TakeStale(e, e', p, m);
    } else if |PeerOpen(e.link.open, 1 - p)| < PEER_OPEN {
      TakeFirst(e, e', p, m);
    } else {
      TakeRefused(e, e', p, m);
    }
  }

  /** Taking a frame queues nothing, or one RESET. */
  lemma TakeQueues(e: Side, p: int, m: Msg, wire: Log, taken: Log)
    requires Fifo(e, wire, taken) && (!e.link.writing ==> e.link.out == [])
    ensures var l := RouteFrame(e.link, m, 1 - p).0;
      && WithLink(e, l).sent == e.sent + (if l.out != e.link.out then [Marker(m.id, Reset)] else [])
      && Fifo(WithLink(e, l), wire, taken)
      && l.writing == e.link.writing && (!l.writing ==> l.out == [])
  {
    hide Sends, Encode, Marker;
    var l := RouteFrame(e.link, m, 1 - p).0;
    QueuedIsSent(e, e.link.(peerHigh := m.id), Out.Send(Marker(m.id, Reset)), wire, taken);
    QueuedIsSent(e, l.(out := e.link.out), Close, wire, taken);
  }

  lemma ConvSame(e: Side, e': Side, id: u32)
    requires id in e.convs && ConvOk(e, id) && id in e'.convs && e'.convs[id] == e.convs[id]
    requires e'.routed == e.routed && e'.reading == e.reading && e'.link.open == e.link.open && Pending(e', id) == Pending(e, id)
    ensures ConvOk(e', id)
  {
  }

  /** A step that only moves items, from the hand to a queue or from a queue to its reader. */
  lemma ItemsMoved(e: Side, e': Side, p: int)
    requires Local(e, p) && e' == e.(convs := e'.convs, holding := e'.holding) && e'.convs.Keys == e.convs.Keys
    requires forall id | id in e.convs :: e'.convs[id].held == e.convs[id].held && ConvOk(e', id)
    requires e'.holding.Some? ==> e'.holding == e.holding
    ensures Local(e', p)
  {
    hide Honest, Ids, Closed, High, On, Items, Encode, Header, Sends, ConvOk, RouteOk;
    forall id | id in e'.link.open ensures RouteOk(e', id) {
      assert RouteOk(e, id);
      RouteSame(e, e', id);
    }
  }

  lemma RouteSame(e: Side, e': Side, id: u32)
    requires id in e.link.open && RouteOk(e, id) && e'.link.open == e.link.open && e'.reading == e.reading
    requires e'.convs.Keys == e.convs.Keys && (id in e.convs ==> e'.convs[id].held == e.convs[id].held)
    ensures RouteOk(e', id)
  {
  }

  lemma ReadKeeps(e: Side, e': Side, p: int, id: u32)
    requires Local(e, p) && Holds(e, id) && e.convs[id].queue != []
    requires var c := e.convs[id];
      e' == e.(convs := e.convs[id := c.(queue := c.queue[1..], read := c.read + [c.queue[0]])])
    ensures Local(e', p)
  {
    hide Numbers, ConvOk, RouteOk;
    forall other | other in e.convs ensures ConvOk(e', other) {
      assert ConvOk(e, other);
      if other == id { ReadConv(e, e', id); } else { ConvSame(e, e', other); }
    }
    ItemsMoved(e, e', p);
  }

  lemma ReadConv(e: Side, e': Side, id: u32)
    requires Holds(e, id) && e.convs[id].queue != [] && ConvOk(e, id)
    requires var c := e.convs[id];
      e' == e.(convs := e.convs[id := c.(queue := c.queue[1..], read := c.read + [c.queue[0]])])
    ensures ConvOk(e', id)
  {
    hide On, Items, Closed;
    var c := e.convs[id];
    assert c.read + c.queue == c.read + [c.queue[0]] + c.queue[1..];
  }

  lemma HandKeeps(e: Side, e': Side, p: int)
    requires Local(e, p) && e.holding.Some?
    requires var (id, item) := e.holding.value;
      e' == e.(holding := None,
               convs := if Holds(e, id) then e.convs[id := e.convs[id].(queue := e.convs[id].queue + [item])] else e.convs)
    ensures Local(e', p)
  {
    hide Numbers, ConvOk, RouteOk;
    var (id, item) := e.holding.value;
    forall other | other in e.convs ensures ConvOk(e', other) {
      assert ConvOk(e, other);
      if other == id { HandConv(e, e'); } else { ConvSame(e, e', other); }
    }
    ItemsMoved(e, e', p);
  }

  lemma HandConv(e: Side, e': Side)
    requires e.holding.Some? && e.holding.value.0 in e.convs && ConvOk(e, e.holding.value.0)
    requires var (id, item) := e.holding.value;
      e' == e.(holding := None,
               convs := if Holds(e, id) then e.convs[id := e.convs[id].(queue := e.convs[id].queue + [item])] else e.convs)
    ensures ConvOk(e', e.holding.value.0)
  {
    hide On, Items, Closed;
    var (id, item) := e.holding.value;
    var c := e.convs[id];
    assert c.read + c.queue + [item] == c.read + (c.queue + [item]) + [];
  }

  lemma EndLinkKeeps(e: Side, p: int, wire: Log, taken: Log)
    requires Local(e, p) && Fifo(e, wire, taken)
    ensures var e' := WithLink(e, Links.EndLink(e.link)); Local(e', p) && Fifo(e', wire, taken)
  {
    hide Honest, Ids, Closed, High, On, Items, Encode, Header, Sends;
    QueuedIsSent(e, e.link.(ended := true), Close, wire, taken);
    TablesSame(e, WithLink(e, Links.EndLink(e.link)), p);
  }

  lemma ReaderEndsKeeps(e: Side, p: int, wire: Log, taken: Log)
    requires Local(e, p) && Fifo(e, wire, taken) && e.holding.None?
    ensures Local(ReaderEnds(e), p) && Fifo(ReaderEnds(e), wire, taken)
  {
    hide Honest, Ids, Closed, High, On, Items, Encode, Header, Sends;
    var e' := ReaderEnds(e);
    QueuedIsSent(e, e.link.(ended := true, open := map[]), Close, wire, taken);
    assert PeerOpen(e'.link.open, 1 - p) == {};
    forall other | other in e'.convs ensures ConvOk(e', other) {
      assert ConvOk(e, other);
    }
  }

  lemma WriterStopsKeeps(e: Side, p: int, wire: Log, taken: Log)
    requires Local(e, p) && Fifo(e, wire, taken)
    ensures Local(WriterStops(e), p) && Fifo(WriterStops(e), wire, taken)
  {
    hide Honest, Ids, Closed, High, On, Items, Encode, Header, Sends;
    FifoPrefix(e, wire, taken);
    TablesSame(e, WriterStops(e), p);
  }

  lemma SendsHead(out: seq<Out>)
    requires out != [] && out[0].Send?
    ensures Sends(out) == [out[0].frame] + Sends(out[1..])
  {
    assert out == [out[0]] + out[1..];
    SendsAppend([out[0]], out[1..]);
    assert Sends([out[0]]) == [out[0].frame];
  }

  lemma WriteKeeps(e: Side, p: int, wire: Log, taken: Log)
    requires Local(e, p) && Fifo(e, wire, taken) && e.link.writing && e.link.out != [] && e.link.out[0].Send?
    ensures var e' := e.(link := e.link.(out := e.link.out[1..]));
      Local(e', p) && Fifo(e', wire + [e.link.out[0].frame], taken)
  {
    hide Honest, Ids, Closed, High, On, Items, Encode, Header, Sends, ConvOk, RouteOk;
    var e' := e.(link := e.link.(out := e.link.out[1..]));
    SendsHead(e.link.out);
    TablesSame(e, e', p);
  }

  /** Any step of one end keeps what relates the two. */
  lemma StepKeeps(e: Side, peer: Side, p: int, max: int, wireIn: Log, wireOut: Log, act: Action)
    requires Pair(e, peer, p, wireIn, wireOut)
    ensures var (e', i, o) := Step(e, p, max, wireIn, wireOut, act); Pair(e', peer, p, i, o)
  {
    hide Honest, Ids, Closed, High, On, Items, Encode, Header, Sends, ConvOk, RouteOk, Numbers;
    var (e', i, o) := Step(e, p, max, wireIn, wireOut, act);
    match act
    case FirstSend(body) =>
      if !e.link.ended && e.link.next <= MAX_U32 - 2 {
        FirstSendKeeps(e, peer, p, wireIn, wireOut, body);
      }
    case Send(id, body) =>
      if Holds(e, id) {
        SendKeeps(e, peer, p, wireIn, wireOut, id, body);
      }
    case Finish(id, kind) =>
      if Holds(e, id) && kind != Frame {
        FinishKeeps(e, peer, p, wireIn, wireOut, id, kind);
      }
    case Recv(id) =>
      if e' != e {
        ReadKeeps(e, e', p, id);
      }
    case EndLink =>
      EndLinkKeeps(e, p, wireOut, peer.routed);
    case Take =>
      if e.reading && e.holding.None? && wireIn != [] {
        TakeKeeps(e, peer, p, wireIn, wireOut);
      }
    case Hand =>
      if e' != e {
        HandKeeps(e, e', p);
      }
    case LinkLost =>
      if e.holding.None? {
        ReaderEndsKeeps(e, p, wireOut, peer.routed);
      }
    case Write =>
      if e.link.writing && e.link.out != [] {
        WriterStopsKeeps(e, p, wireOut, peer.routed);
        if e.link.out[0].Send? {
          WriteKeeps(e, p, wireOut, peer.routed);
        }
      }
    case WriteFails =>
      WriterStopsKeeps(e, p, wireOut, peer.routed);
  }

  /** Every state of every run. */
  lemma {:induction false} RunKeeps(max: int, moves: seq<Move>)
    ensures Inv(Run(max, moves))
  {
    if moves == [] {
      assert PeerOpen(map[], 0) == {} && PeerOpen(map[], 1) == {};
    } else {
      var s, move := Run(max, moves[..|moves| - 1]), moves[|moves| - 1];
      RunKeeps(max, moves[..|moves| - 1]);
      if move.dialer {
        StepKeeps(s.dialer, s.acceptor, 1, max, s.toDialer, s.toAcceptor, move.act);
      } else {
        StepKeeps(s.acceptor, s.dialer, 0, max, s.toAcceptor, s.toDialer, move.act);
      }
    }
  }
}
