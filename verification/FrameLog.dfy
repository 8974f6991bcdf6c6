/**
 Histories of a link's frames: what one end queued, or what the other end's reader took.
 `Honest` is what such a history keeps; the lemmas carry it between the two ends.
 */
module FrameLog {
  import opened Wrappers
  import opened Bytes
  import opened Framing
  import opened Links

  type Log = seq<seq<byte>>

  /** The messages of one conversation, in order. */
  function On(log: Log, id: u32): seq<Msg> {
    if log == [] then []
    else
      var m := Header(log[|log| - 1]);
      On(log[..|log| - 1], id) + if m.Some? && m.value.id == id then [m.value] else []
  }

  /** The conversations a history names. */
  function Ids(log: Log): set<u32> {
    if log == [] then {}
    else
      var m := Header(log[|log| - 1]);
      Ids(log[..|log| - 1]) + if m.Some? then {m.value.id} else {}
  }

  /** The conversations a history ends or resets. */
  function Closed(log: Log): set<u32> {
    if log == [] then {}
    else
      var m := Header(log[|log| - 1]);
      Closed(log[..|log| - 1]) + if m.Some? && m.value.kind != Frame then {m.value.id} else {}
  }

  /** The highest number of parity `p` a history names, or 0. */
  function High(log: Log, p: int): int {
    if log == [] then 0
    else
      var m, high := Header(log[|log| - 1]), High(log[..|log| - 1], p);
      if m.Some? && m.value.id % 2 == p && m.value.id > high then m.value.id else high
  }

  /** What a conversation's queue is given for its messages: a RESET gives it nothing. */
  function Items(ms: seq<Msg>): seq<Item> {
    if ms == [] then []
    else
      var m := ms[|ms| - 1];
      Items(ms[..|ms| - 1]) + match m.kind case Frame => [Body(m.body)] case End => [Ended] case Reset => []
  }

  /** Every frame has a header; nothing follows a conversation's END or RESET; and each
      number of the sender's own parity `p` starts with a FRAME, above every one before. */
  predicate Honest(log: Log, p: int) {
    log == [] ||
    (var before, m := log[..|log| - 1], Header(log[|log| - 1]);
     && Honest(before, p)
     && m.Some?
     && m.value.id !in Closed(before)
     && (m.value.id % 2 == p && m.value.id !in Ids(before) ==> m.value.kind == Frame && m.value.id > High(before, p)))
  }

  /** The frames a writer's queue holds. */
  function Sends(out: seq<Out>): Log {
    if out == [] then []
    else
      var o := out[|out| - 1];
      Sends(out[..|out| - 1]) + if o.Send? then [o.frame] else []
  }

  /** A history with one more frame. */
  lemma Grow(log: Log, m: Msg, p: int)
    ensures var more := log + [Encode(m)];
      && Ids(more) == Ids(log) + {m.id}
      && Closed(more) == Closed(log) + (if m.kind != Frame then {m.id} else {})
      && High(more, p) == (if m.id % 2 == p && m.id > High(log, p) then m.id else High(log, p))
      && (Honest(more, p) <==>
          && Honest(log, p) && m.id !in Closed(log)
          && (m.id % 2 == p && m.id !in Ids(log) ==> m.kind == Frame && m.id > High(log, p)))
  {
    var more := log + [Encode(m)];
    assert more[..|log|] == log;
    HeaderInvertsEncode(m, Encode(m));
  }

  lemma GrowOn(log: Log, m: Msg, id: u32)
    ensures On(log + [Encode(m)], id) == if id == m.id then On(log, id) + [m] else On(log, id)
    ensures Items(On(log + [Encode(m)], id)) == Items(On(log, id)) +
            if id != m.id || m.kind == Reset then [] else if m.kind == End then [Ended] else [Body(m.body)]
  {
    var more := log + [Encode(m)];
    assert more[..|log|] == log;
    HeaderInvertsEncode(m, Encode(m));
    if id == m.id {
      assert (On(log, id) + [m])[..|On(log, id)|] == On(log, id);
    }
  }

  lemma {:induction false} SendsAppend(out: seq<Out>, more: seq<Out>)
    ensures Sends(out + more) == Sends(out) + Sends(more)
  {
    if more == [] {
      assert out + more == out;
    } else {
      var o := more[|more| - 1];
      assert (out + more)[..|out + more| - 1] == out + more[..|more| - 1];
      SendsAppend(out, more[..|more| - 1]);
    }
  }

  lemma {:induction false} HighBounds(log: Log, p: int, id: u32)
    ensures Closed(log) <= Ids(log)
    ensures id in Ids(log) && id % 2 == p ==> id <= High(log, p)
    ensures High(log, p) == 0 || (0 < High(log, p) <= MAX_U32 && High(log, p) % 2 == p && High(log, p) in Ids(log))
    ensures id !in Ids(log) ==> On(log, id) == []
  {
    if log != [] {
      HighBounds(log[..|log| - 1], p, id);
    }
  }

  /** What a history keeps, each of its prefixes keeps, and one conversation's part of the
      prefix is a prefix of its part; once it is closed, all of it. */
  lemma {:induction false} PrefixOf(a: Log, b: Log, p: int, id: u32)
    requires a <= b && Honest(b, p)
    ensures Honest(a, p)
    ensures Ids(a) <= Ids(b) && Closed(a) <= Closed(b)
    ensures On(a, id) <= On(b, id) && Items(On(a, id)) <= Items(On(b, id))
    ensures id in Closed(a) ==> On(a, id) == On(b, id)
  {
    if a == b {
    } else {
      var init := b[..|b| - 1];
      PrefixOf(a, init, p, id);
      var more := On(b, id);
      if |more| > 0 && more != On(init, id) {
        assert more[..|more| - 1] == On(init, id);
      }
    }
  }

  /** An END is the last thing of its conversation, and a closed one has its END or RESET. */
  lemma {:induction false} EndsLast(log: Log, p: int, id: u32)
    requires Honest(log, p)
    ensures var items := Items(On(log, id));
      && (forall i | 0 <= i < |items| && items[i] == Ended :: i == |items| - 1)
      && (Ended in items ==> id in Closed(log))
    ensures id in Closed(log) ==> exists m :: m in On(log, id) && m.kind != Frame && (m.kind == End ==> Ended in Items(On(log, id)))
  {
    hide Header, Encode, High, Ids;
    if log != [] {
      var init, m := log[..|log| - 1], Header(log[|log| - 1]).value;
      EndsLast(init, p, id);
      if m.id == id {
        var on := On(log, id);
        assert on[..|on| - 1] == On(init, id) && on[|on| - 1] == m;
        var before := Items(On(init, id));
        assert forall i | 0 <= i < |before| :: before[i] in before && before[i] != Ended;
        if m.kind == End {
          assert Items(on)[|Items(on)| - 1] == Ended;
        }
        if m.kind != Frame {
          assert m in on;
        }
      } else {
        assert On(log, id) == On(init, id);
      }
    }
  }
}
