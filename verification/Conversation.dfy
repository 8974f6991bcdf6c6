/**
 One end of a carrier link and the table of its open conversations, as values: what each
 step made under the table's lock does.
 */
module Links {
  import opened Wrappers
  import opened Bytes
  import opened Framing

  /** The capacity of one conversation's inbound queue. */
  const QUEUE := 16
  /** The bound on routes of the peer's parity in one table. */
  const PEER_OPEN := 100

  const MAX_U32 := 0xffff_ffff

  /** What the writer is given. */
  datatype Out = Send(frame: seq<byte>) | Close

  /** An open conversation: `tx`, whether the reader still puts frames in its queue (until
      the peer ends it), and `done`, whether this end has sent its END. */
  datatype Route = Route(tx: bool, done: bool)

  /** A link's table, and the queue of its writer while the writer runs. */
  datatype Link = Link(
    next: u32,
    peerHigh: u32,
    open: map<u32, Route>,
    ended: bool,
    writing: bool,
    out: seq<Out>)

  /** One element of an inbound queue. */
  datatype Item = Body(body: seq<byte>) | Ended

  /** A frame's fate: into a queue, opening one, or nowhere. */
  datatype Routed = Deliver(id: u32, item: Item) | Opened(id: u32, first: Item) | Dropped

  datatype SendError = Gone | Spent

  function Start(dialed: bool): Link {
    Link(if dialed then 1 else 2, 0, map[], false, true, [])
  }

  /** Queue for the writer: nothing once it has stopped. */
  function Queued(l: Link, o: Out): Link {
    if l.writing then l.(out := l.out + [o]) else l
  }

  /** Queues one frame. With no `number`, the conversation is new: it is given `next` and a route,
      and only then is the frame queued under it. */
  function Put(l: Link, number: Option<u32>, kind: Kind, body: seq<byte>): (Link, Result<u32, SendError>) {
    if l.ended then (l, Failure(Gone))
    else
      match number
      case Some(id) => Sent(l, id, kind, body)
      case None =>
        if l.next > MAX_U32 - 2 then (l, Failure(Spent))
        else Sent(l.(next := l.next + 2, open := l.open[l.next := Route(true, false)]), l.next, kind, body)
  }

  /** The send itself fails once the writer is gone; a number taken for it stays taken. */
  function Sent(l: Link, id: u32, kind: Kind, body: seq<byte>): (Link, Result<u32, SendError>) {
    (Queued(l, Send(Encode(Msg(id, kind, body)))), if l.writing then Success(id) else Failure(Gone))
  }

  /** This end is done with a conversation, by `kind`, END or RESET. */
  function Finish(l: Link, number: Option<u32>, kind: Kind): Link {
    match number
    case None => l
    case Some(id) =>
      var l := if l.ended then l else Queued(l, Send(Marker(id, kind)));
      if id !in l.open then l
      else if kind == Reset || !l.open[id].tx then l.(open := l.open - {id})
      else l.(open := l.open[id := l.open[id].(done := true)])
  }

  /** One frame from the peer, whose numbers are `peers` modulo 2, against the table. */
  function RouteFrame(l: Link, m: Msg, peers: int): (Link, Routed) {
    var Msg(id, kind, body) := m;
    if id in l.open then
      if !l.open[id].tx then (l, Dropped)
      else if kind == Frame then (l, Deliver(id, Body(body)))
      else
        var open := if l.open[id].done then l.open - {id} else l.open[id := l.open[id].(tx := false)];
        (l.(open := open), if kind == End then Deliver(id, Ended) else Dropped)
    else if id % 2 != peers || id <= l.peerHigh then (l, Dropped)
    else
      var l := l.(peerHigh := id);
      if kind == Reset then (l, Dropped)
      else if |PeerOpen(l.open, peers)| >= PEER_OPEN then (Queued(l, Send(Marker(id, Reset))), Dropped)
      else
        (l.(open := l.open[id := Route(kind == Frame, false)]), Opened(id, if kind == Frame then Body(body) else Ended))
  }

  /** The peer's conversations in a table. */
  function PeerOpen(open: map<u32, Route>, peers: int): set<u32> {
    set id | id in open && id % 2 == peers
  }

  /** End the link from anywhere: nothing more is queued, and the writer then closes it. */
  function EndLink(l: Link): Link {
    Queued(l.(ended := true), Close)
  }

  /** The link has ended, as its reader found: every route goes. */
  function LinkEnded(l: Link): Link {
    Queued(l.(ended := true, open := map[]), Close)
  }

}

/** The same end in place, as its conversations, its reader and its writer share it. */
module Conversation {
  import opened Wrappers
  import opened Bytes
  import opened Framing
  import opened Links

  class Linked {
    var next: u32
    var peerHigh: u32
    var open: map<u32, Route>
    var ended: bool
    var writing: bool
    var out: seq<Out>

    ghost function State(): (l: Link)
      reads this
    {
      Link(next, peerHigh, open, ended, writing, out)
    }

    constructor (dialed: bool)
      ensures State() == Links.Start(dialed)
    {
      next, peerHigh := if dialed then 1 else 2, 0;
      open, ended, writing, out := map[], false, true, [];
    }

    method Send(o: Out) returns (sent: bool)
      modifies this`out
      ensures State() == Queued(old(State()), o)
      ensures sent == writing
    {
      if writing {
        out := out + [o];
      }
      sent := writing;
    }

    method Put(number: Option<u32>, kind: Kind, body: seq<byte>) returns (r: Result<u32, SendError>)
      modifies this
      ensures (State(), r) == Links.Put(old(State()), number, kind, body)
    {
      if ended {
        return Failure(Gone);
      }
      var id;
      match number {
        case Some(known) => id := known;
        case None =>
          id := next;
          if id > MAX_U32 - 2 {
            return Failure(Spent);
          }
          next := id + 2;
          open := open[id := Route(true, false)];
      }
      var sent := Send(Out.Send(Encode(Msg(id, kind, body))));
      r := if sent then Success(id) else Failure(Gone);
    }

    method Finish(number: Option<u32>, kind: Kind)
      modifies this
      ensures State() == Links.Finish(old(State()), number, kind)
    {
      if number.None? {
        return;
      }
      var id := number.value;
      if !ended {
        var _ := Send(Out.Send(Marker(id, kind)));
      }
      if id in open {
        if kind == Reset || !open[id].tx {
          open := open - {id};
        } else {
          open := open[id := open[id].(done := true)];
        }
      }
    }

    /** How many of the peer's conversations are open. */
    method Held(peers: int) returns (n: nat)
      ensures n == |PeerOpen(open, peers)|
    {
      n := 0;
      var left := open.Keys;
      ghost var held := PeerOpen(open, peers);
      assert held - left == {};
      while left != {}
        invariant left <= open.Keys && n == |held - left|
        decreases |left|
      {
        var id :| id in left;
        if id % 2 == peers {
          n := n + 1;
        }
        assert held - (left - {id}) == if id in held then held - left + {id} else held - left;
        left := left - {id};
      }
      assert held - left == held;
    }

    method RouteFrame(m: Msg, peers: int) returns (routed: Routed)
      modifies this
      ensures (State(), routed) == Links.RouteFrame(old(State()), m, peers)
    {
      var Msg(id, kind, body) := m;
      if id in open {
        if !open[id].tx {
          return Dropped;
        }
        if kind == Frame {
          return Deliver(id, Body(body));
        }
        var done := open[id].done;
        open := open[id := open[id].(tx := false)];
        if done {
          open := open - {id};
          assert open == old(open) - {id};
        }
        return if kind == Kind.End then Deliver(id, Ended) else Dropped;
      }
      if id % 2 != peers || id <= peerHigh {
        return Dropped;
      }
      peerHigh := id;
      if kind == Reset {
        return Dropped;
      }
      var held := Held(peers);
      if held >= PEER_OPEN {
        var _ := Send(Out.Send(Marker(id, Reset)));
        return Dropped;
      }
      open := open[id := Route(kind == Frame, false)];
      return Opened(id, if kind == Frame then Body(body) else Ended);
    }

    method End()
      modifies this
      ensures State() == EndLink(old(State()))
    {
      ended := true;
      var _ := Send(Close);
    }

    method LinkEnded()
      modifies this
      ensures State() == Links.LinkEnded(old(State()))
    {
      ended, open := true, map[];
      var _ := Send(Close);
    }
  }
}
