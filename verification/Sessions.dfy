/**
 The client's session as values: its per-chain logs and its clock, and what an append, a
 remote batch, a refusal and a resume do to them.
 */
module Sessions {
  import opened Wrappers
  import opened Bytes
  import opened Text
  import opened Ops

  type Logs = map<string, seq<Op>>

  datatype State = State(origin: string, lamport: int, logs: Logs, unresumed: map<string, int>)

  datatype Failed = Unsupported | Stopped(no: int)

  /** Whether an op's shape is one a session takes; a SWMR payload must decode, as `swmr` says. */
  predicate Supported(shape: Shape, payload: seq<byte>, swmr: seq<byte> -> bool) {
    match shape
    case Value => true
    case Log => true
    case Crdt => true
    case Swmr => swmr(payload)
    case OtherShape => false
  }

  function LogOf(logs: Logs, k: string): seq<Op> {
    if k in logs then logs[k] else []
  }

  /** Store an op that is its chain's next: a repeat and a gap change nothing. */
  function Stored(logs: Logs, op: Op): (Logs, bool) {
    var k := KeyOf(op);
    var log := LogOf(logs, k);
    if log != [] && op.no != log[|log| - 1].no + 1 then (logs, false) else (logs[k := log + [op]], true)
  }

  /** The op a local append makes. `frontier` is the zone's heads, which a CRDT op refers to. */
  function Made(s: State, hash: Op -> seq<byte>, z: Zone, shape: Shape, payload: seq<byte>, frontier: seq<Head>): Op {
    var own := LogOf(s.logs, ChainKey(z.share, z.gladeId, z.key, s.origin));
    var refs := if shape == Crdt then frontier else [];
    var (no', prev) := if own == [] then (0, None) else (own[|own| - 1].no + 1, Some(hash(own[|own| - 1])));
    Op(z.share, z.gladeId, z.key, s.origin, no', prev, s.lamport + 1, refs, shape, payload)
  }

  function Append(s: State, hash: Op -> seq<byte>, swmr: seq<byte> -> bool, z: Zone, shape: Shape,
                  payload: seq<byte>, frontier: seq<Head>): (State, Result<Op, Failed>) {
    var k := ChainKey(z.share, z.gladeId, z.key, s.origin);
    if !Supported(shape, payload, swmr) then (s, Failure(Unsupported))
    else if k in s.unresumed then (s, Failure(Stopped(s.unresumed[k])))
    else
      var op := Made(s, hash, z, shape, payload, frontier);
      (s.(lamport := s.lamport + 1, logs := Stored(s.logs, op).0), Success(op))
  }

  function Take(s: State, op: Op): State {
    var (logs, stored) := Stored(s.logs, op);
    s.(logs := logs, lamport := if stored && op.lamport > s.lamport then op.lamport else s.lamport)
  }

  function TakeAll(s: State, ops: seq<Op>): State {
    if ops == [] then s else Take(TakeAll(s, ops[..|ops| - 1]), ops[|ops| - 1])
  }

  /** A remote batch: one op the session cannot take refuses it whole. */
  function ApplyRemote(s: State, swmr: seq<byte> -> bool, ops: seq<Op>): (State, bool) {
    if forall i | 0 <= i < |ops| :: Supported(ops[i].shape, ops[i].payload, swmr)
    then (TakeAll(s, ops), true) else (s, false)
  }

  function IndexOf(log: seq<Op>, op: Op): (at: nat)
    ensures at <= |log| && op !in log[..at] && (at < |log| ==> log[at] == op)
  {
    if log == [] || log[0] == op then 0 else 1 + IndexOf(log[1..], op)
  }

  /** A refused op of the session's origin: its chain is cut before it, and stopped at its seq. An op
      of another origin, or one not held, changes nothing. */
  function Refuse(s: State, op: Op): State {
    var k := KeyOf(op);
    if op.origin != s.origin || k !in s.logs || op !in s.logs[k] then s
    else s.(logs := s.logs[k := s.logs[k][..IndexOf(s.logs[k], op)]], unresumed := s.unresumed[k := op.no])
  }

  function Resume(s: State, z: Zone): State {
    s.(unresumed := s.unresumed - {ChainKey(z.share, z.gladeId, z.key, s.origin)})
  }

  /** The zone's ops a session holds, whatever the order its logs are listed in. */
  ghost predicate Listing(logs: Logs, prefix: string, ops: seq<Op>) {
    exists keys: seq<string> :: Lists(logs, prefix, keys) && ops == Concat(logs, keys)
  }

  ghost predicate Lists(logs: Logs, prefix: string, keys: seq<string>) {
    && (forall i, j | 0 <= i < j < |keys| :: keys[i] != keys[j])
    && (forall k :: k in keys <==> k in logs && prefix <= k)
  }

  function Concat(logs: Logs, keys: seq<string>): seq<Op> {
    if keys == [] then [] else Concat(logs, keys[..|keys| - 1]) + LogOf(logs, keys[|keys| - 1])
  }

  // The folds.

  function Slot(op: Op): (string, int) { (op.origin, op.no) }

  function OfShape(ops: seq<Op>, shape: Shape): seq<Op> {
    if ops == [] then []
    else OfShape(ops[..|ops| - 1], shape) + if ops[|ops| - 1].shape == shape then [ops[|ops| - 1]] else []
  }

  function Slots(ops: seq<Op>): set<(string, int)> {
    set o | o in ops :: Slot(o)
  }

  /** The first op of each slot. */
  function FirstSeen(ops: seq<Op>): set<Op> {
    if ops == [] then {}
    else
      var init, op := ops[..|ops| - 1], ops[|ops| - 1];
      FirstSeen(init) + if Slot(op) in Slots(init) then {} else {op}
  }

  ghost predicate SlotsDiffer(ops: seq<Op>) {
    forall i, j | 0 <= i < j < |ops| :: Slot(ops[i]) != Slot(ops[j])
  }

  ghost predicate Dedups(ops: seq<Op>, live: seq<Op>) {
    SlotsDiffer(live) && (set o | o in live) == FirstSeen(ops)
  }

  predicate Better(o: Op, w: Op) {
    o.lamport > w.lamport || (o.lamport == w.lamport && Before(w.origin, o.origin))
  }

  /** `r` is the last writer's value: the payload of a winner by (lamport, origin). */
  ghost predicate FoldsValue(ops: seq<Op>, r: Option<seq<byte>>) {
    var live := FirstSeen(OfShape(ops, Value));
    match r
    case None => live == {}
    case Some(payload) => exists w :: w in live && w.payload == payload && forall o | o in live :: !Better(o, w)
  }

  predicate LogBefore(a: Op, b: Op) {
    a.lamport < b.lamport || (a.lamport == b.lamport && (Before(a.origin, b.origin) || (a.origin == b.origin && a.no < b.no)))
  }

  ghost predicate Ordered(ops: seq<Op>) {
    forall i, j | 0 <= i < j < |ops| :: LogBefore(ops[i], ops[j])
  }

  function Payloads(ops: seq<Op>): seq<seq<byte>> {
    seq(|ops|, i requires 0 <= i < |ops| => ops[i].payload)
  }

  /** `r` is the log's payloads, by (lamport, origin, seq). */
  ghost predicate FoldsLog(ops: seq<Op>, r: seq<seq<byte>>) {
    exists live :: Dedups(OfShape(ops, Log), live) && Ordered(live) && r == Payloads(live)
  }
}

/** The session in place. */
module SessionLog {
  import opened Wrappers
  import opened Bytes
  import opened Text
  import opened Ops
  import S = Sessions
  import opened Sessions

  class Session {
    const origin: string
    const hash: Op -> seq<byte>
    const swmr: seq<byte> -> bool
    var lamport: int
    var logs: Logs
    var unresumed: map<string, int>

    ghost function Now(): State
      reads this
    {
      State(origin, lamport, logs, unresumed)
    }

    constructor (origin: string, hash: Op -> seq<byte>, swmr: seq<byte> -> bool)
      ensures Now() == State(origin, 0, map[], map[])
      ensures this.hash == hash && this.swmr == swmr
    {
      this.origin, this.hash, this.swmr := origin, hash, swmr;
      lamport, logs, unresumed := 0, map[], map[];
    }

    method Store(op: Op) returns (stored: bool)
      modifies this`logs
      ensures (logs, stored) == Stored(old(logs), op)
    {
      var k := KeyOf(op);
      var log := LogOf(logs, k);
      if log != [] {
        var last := log[|log| - 1];
        if op.no <= last.no {
          return false;
        }
        if op.no != last.no + 1 {
          return false;
        }
      }
      logs := logs[k := log + [op]];
      return true;
    }

    method Append(z: Zone, shape: Shape, payload: seq<byte>, frontier: seq<Head>) returns (r: Result<Op, Failed>)
      modifies this
      ensures (Now(), r) == S.Append(old(Now()), hash, swmr, z, shape, payload, frontier)
    {
      if !Supported(shape, payload, swmr) {
        return Failure(Unsupported);
      }
      var k := ChainKey(z.share, z.gladeId, z.key, origin);
      if k in unresumed {
        return Failure(Stopped(unresumed[k]));
      }
      var own := LogOf(logs, k);
      var no', prev := 0, None;
      if own != [] {
        var last := own[|own| - 1];
        no', prev := last.no + 1, Some(hash(last));
      }
      lamport := lamport + 1;
      var refs := if shape == Crdt then frontier else [];
      var op := Op(z.share, z.gladeId, z.key, origin, no', prev, lamport, refs, shape, payload);
      var _ := Store(op);
      return Success(op);
    }

    method Refused(op: Op)
      modifies this
      ensures Now() == Refuse(old(Now()), op)
    {
      if op.origin != origin {
        return;
      }
      var chain := KeyOf(op);
      if chain !in logs {
        return;
      }
      var log := logs[chain];
      var at := 0;
      while at < |log| && log[at] != op
        invariant at <= |log| && op !in log[..at]
      {
        at := at + 1;
      }
      if at == |log| {
        assert log[..at] == log;
        return;
      }
      FirstIndex(log, op, at);
      logs, unresumed := logs[chain := log[..at]], unresumed[chain := op.no];
    }

    method Resumed(z: Zone)
      modifies this`unresumed
      ensures Now() == Resume(old(Now()), z)
    {
      unresumed := unresumed - {ChainKey(z.share, z.gladeId, z.key, origin)};
    }

    method ApplyRemote(ops: seq<Op>) returns (applied: bool)
      modifies this
      ensures (Now(), applied) == S.ApplyRemote(old(Now()), swmr, ops)
    {
      for i := 0 to |ops|
        invariant forall j | 0 <= j < i :: Supported(ops[j].shape, ops[j].payload, swmr)
        invariant Now() == old(Now())
      {
        if !Supported(ops[i].shape, ops[i].payload, swmr) {
          return false;
        }
      }
      for i := 0 to |ops|
        invariant Now() == TakeAll(old(Now()), ops[..i])
      {
        assert ops[..i + 1][..i] == ops[..i];
        var stored := Store(ops[i]);
        if stored && ops[i].lamport > lamport {
          lamport := ops[i].lamport;
        }
      }
      assert ops[..|ops|] == ops;
      return true;
    }

    /** Every op in a zone, across origins, in whatever order the logs are iterated. */
    method OpsFor(z: Zone) returns (ops: seq<Op>)
      ensures Listing(logs, PrefixOf(z), ops)
    {
      ops := [];
      var left, keys := logs.Keys, [];
      while left != {}
        invariant left <= logs.Keys
        invariant forall i, j | 0 <= i < j < |keys| :: keys[i] != keys[j]
        invariant forall k :: k in keys <==> k in logs && k !in left && PrefixOf(z) <= k
        invariant ops == Concat(logs, keys)
        decreases |left|
      {
        var k :| k in left;
        left := left - {k};
        if PrefixOf(z) <= k {
          assert (keys + [k])[..|keys|] == keys;
          ops, keys := ops + logs[k], keys + [k];
        }
      }
      assert Lists(logs, PrefixOf(z), keys);
    }

    method FoldedValue(z: Zone) returns (r: Option<seq<byte>>)
      ensures exists ops :: Listing(logs, PrefixOf(z), ops) && FoldsValue(ops, r)
    {
      var ops := OpsFor(z);
      r := FoldValue(ops);
    }

    method FoldedLog(z: Zone) returns (r: seq<seq<byte>>)
      ensures exists ops :: Listing(logs, PrefixOf(z), ops) && FoldsLog(ops, r)
    {
      var ops := OpsFor(z);
      r := FoldLog(ops);
    }
  }

  lemma {:induction false} FirstIndex(log: seq<Op>, op: Op, at: nat)
    requires at < |log| && log[at] == op && op !in log[..at]
    ensures IndexOf(log, op) == at
  {
    if at > 0 {
      assert log[0] == log[..at][0];
      assert log[1..][..at - 1] == log[..at][1..];
      FirstIndex(log[1..], op, at - 1);
    }
  }

  /** The ops of one shape, in order. */
  method Filter(ops: seq<Op>, shape: Shape) returns (of: seq<Op>)
    ensures of == OfShape(ops, shape)
  {
    of := [];
    for i := 0 to |ops|
      invariant of == OfShape(ops[..i], shape)
    {
      assert ops[..i + 1][..i] == ops[..i];
      if ops[i].shape == shape {
        of := of + [ops[i]];
      }
    }
    assert ops[..|ops|] == ops;
  }

  /** `seen` maps each slot of `ops` to the first op of it. */
  ghost predicate Firsts(ops: seq<Op>, seen: map<(string, int), Op>) {
    && seen.Keys == Slots(ops)
    && (forall slot | slot in seen :: Slot(seen[slot]) == slot)
    && (forall o :: o in FirstSeen(ops) <==> Slot(o) in seen && seen[Slot(o)] == o)
  }

  lemma SlotsGrow(init: seq<Op>, op: Op)
    ensures Slots(init + [op]) == Slots(init) + {Slot(op)}
  {
    hide Slot;
    forall slot ensures slot in Slots(init + [op]) <==> slot in Slots(init) + {Slot(op)} {
      if slot in Slots(init) {
        var o :| o in init && Slot(o) == slot;
        assert o in init + [op];
      }
      assert op in init + [op];
    }
  }

  lemma FirstsGrow(ops: seq<Op>, i: nat, seen: map<(string, int), Op>)
    requires i < |ops| && Firsts(ops[..i], seen)
    ensures Firsts(ops[..i + 1], if Slot(ops[i]) in seen then seen else seen[Slot(ops[i]) := ops[i]])
  {
    hide Slot, Slots;
    var init, op := ops[..i], ops[i];
    assert ops[..i + 1] == init + [op] && ops[..i + 1][..i] == init;
    SlotsGrow(init, op);
    assert FirstSeen(init + [op]) == FirstSeen(init) + if Slot(op) in Slots(init) then {} else {op};
  }

  /** One op a slot, the first seen, in whatever order the slots are iterated. */
  method Dedup(ops: seq<Op>) returns (live: seq<Op>)
    ensures Dedups(ops, live)
  {
    var seen: map<(string, int), Op> := map[];
    for i := 0 to |ops|
      invariant Firsts(ops[..i], seen)
    {
      FirstsGrow(ops, i, seen);
      if Slot(ops[i]) !in seen {
        seen := seen[Slot(ops[i]) := ops[i]];
      }
    }
    assert ops[..|ops|] == ops;
    live := Values(seen);
  }

  /** A map's values, in whatever order it is iterated. */
  method Values(seen: map<(string, int), Op>) returns (live: seq<Op>)
    requires forall slot | slot in seen :: Slot(seen[slot]) == slot
    ensures SlotsDiffer(live) && forall o :: o in live <==> Slot(o) in seen && seen[Slot(o)] == o
  {
    live := [];
    var left := seen.Keys;
    while left != {}
      invariant left <= seen.Keys && SlotsDiffer(live)
      invariant forall o :: o in live <==> Slot(o) in seen && Slot(o) !in left && seen[Slot(o)] == o
      decreases |left|
    {
      var slot :| slot in left;
      left := left - {slot};
      assert forall o | o in live :: Slot(o) != slot;
      live := live + [seen[slot]];
    }
  }

  method FoldValue(ops: seq<Op>) returns (r: Option<seq<byte>>)
    ensures FoldsValue(ops, r)
  {
    var values := Filter(ops, Value);
    var live := Dedup(values);
    var win: Option<Op> := None;
    for i := 0 to |live|
      invariant win.None? <==> i == 0
      invariant win.Some? ==> win.value in live && forall j | 0 <= j < i :: !Better(live[j], win.value)
    {
      if win.None? || Better(live[i], win.value) {
        if win.Some? {
          forall j | 0 <= j < i ensures !Better(live[j], live[i]) {
            BetterTransitive(live[j], live[i], win.value);
          }
        }
        BetterIrreflexive(live[i]);
        win := Some(live[i]);
      }
    }
    r := if win.None? then None else Some(win.value.payload);
    assert forall o | o in FirstSeen(values) :: o in live;
  }

  lemma BetterIrreflexive(a: Op)
    ensures !Better(a, a)
  {
    BeforeTotal(a.origin, a.origin);
  }

  lemma BetterTransitive(a: Op, b: Op, w: Op)
    requires Better(b, w)
    ensures Better(a, b) ==> Better(a, w)
  {
    if Better(a, b) && a.lamport == b.lamport == w.lamport {
      BeforeTransitive(w.origin, b.origin, a.origin);
    }
  }

  /** The payloads by (lamport, origin, seq): an insertion for the library's sort. */
  method FoldLog(ops: seq<Op>) returns (r: seq<seq<byte>>)
    ensures FoldsLog(ops, r)
  {
    var logs := Filter(ops, Log);
    var live := Dedup(logs);
    var sorted: seq<Op> := [];
    for i := 0 to |live|
      invariant Ordered(sorted) && forall o :: o in sorted <==> o in live[..i]
    {
      sorted := Insert(sorted, live[i]);
    }
    r := Payloads(sorted);
    assert live[..|live|] == live;
    OrderedSlots(sorted);
    assert (set o | o in sorted) == (set o | o in live);
  }

  method Insert(sorted: seq<Op>, op: Op) returns (more: seq<Op>)
    requires Ordered(sorted) && forall o | o in sorted :: Slot(o) != Slot(op)
    ensures Ordered(more) && forall o :: o in more <==> o in sorted || o == op
  {
    var at := |sorted|;
    while at > 0 && LogBefore(op, sorted[at - 1])
      invariant 0 <= at <= |sorted| && forall i | at <= i < |sorted| :: LogBefore(op, sorted[i])
    {
      at := at - 1;
    }
    more := sorted[..at] + [op] + sorted[at..];
    forall i | 0 <= i < at ensures LogBefore(sorted[i], op) {
      LogBeforeTotal(sorted[at - 1], op);
      if i < at - 1 {
        LogBeforeTransitive(sorted[i], sorted[at - 1], op);
      }
    }
  }

  lemma LogBeforeTotal(a: Op, b: Op)
    ensures Slot(a) != Slot(b) ==> LogBefore(a, b) || LogBefore(b, a)
    ensures LogBefore(a, b) ==> !LogBefore(b, a)
  {
    BeforeTotal(a.origin, b.origin);
  }

  lemma LogBeforeTransitive(a: Op, b: Op, c: Op)
    requires LogBefore(a, b) && LogBefore(b, c)
    ensures LogBefore(a, c)
  {
    if a.lamport == b.lamport == c.lamport && a.origin != b.origin && b.origin != c.origin {
      BeforeTransitive(a.origin, b.origin, c.origin);
    }
  }

  lemma OrderedSlots(ops: seq<Op>)
    requires Ordered(ops)
    requires forall a, b | a in ops && b in ops && a != b :: Slot(a) != Slot(b)
    ensures SlotsDiffer(ops)
  {
    forall i, j | 0 <= i < j < |ops| ensures Slot(ops[i]) != Slot(ops[j]) {
      LogBeforeTotal(ops[i], ops[j]);
    }
  }
}
