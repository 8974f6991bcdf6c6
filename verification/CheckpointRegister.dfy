/**
 The register of a node's checkpoints of one stream and the chain they fold: where a checkpoint or
 an op lands, and what the register and the chain are then, as values and in place.
 */
module CheckpointRegister {
  import opened Wrappers
  import opened Bytes

  /** A chain's floor: its base, and the hash of its op there. */
  datatype Floor = Floor(base: int, hash: seq<byte>)

  /** A checkpoint's op, by its seq, its hash and the hash it chains to, and the floor it gives. */
  datatype Checkpoint = Checkpoint(no: int, hash: seq<byte>, prev: Option<seq<byte>>, floor: Floor)

  /** An op of the folded chain. */
  datatype Link = Link(no: int, hash: seq<byte>, prev: Option<seq<byte>>)

  /** The newest checkpoint, the ops past its floor, and the tip: the last op's, or the floor. */
  datatype Register = Register(held: Option<Checkpoint>, chain: seq<Link>, tip: Option<Floor>)

  const NONE := Register(None, [], None)

  datatype Placement = Placed | Duplicate | Seen | Fork | ChainBreak | Rewrite

  datatype Against = Above | Covered | Forked

  /** What an arrival is told: taken, known already, or refused. */
  datatype Answer = Appended | Repeated | Under | Equivocation | Gap | Broken | Rewritten | Unverified

  /** An op against a floor: past it, forking it at the base, or covered by it. */
  function Lands(floor: Floor, op: Link): Against {
    if op.no > floor.base then Above else if op.no == floor.base && op.hash != floor.hash then Forked else Covered
  }

  function Place(arriving: Checkpoint, held: Option<Checkpoint>): Placement {
    match held
    case None => Placed
    case Some(h) =>
      if arriving.no < h.no then Seen
      else if arriving.no == h.no then if arriving.hash == h.hash then Duplicate else Fork
      else if arriving.floor.base < h.floor.base || (arriving.floor.base == h.floor.base && arriving.floor.hash != h.floor.hash) then Rewrite
      else if arriving.no == h.no + 1 && arriving.prev != Some(h.hash) then ChainBreak
      else Placed
  }

  function OpAt(chain: seq<Link>, no': int): (at: Option<Link>)
    ensures at.Some? ==> at.value in chain && at.value.no == no'
    ensures at.None? ==> forall op | op in chain :: op.no != no'
  {
    if chain == [] then None else if chain[0].no == no' then Some(chain[0]) else OpAt(chain[1..], no')
  }

  function Kept(chain: seq<Link>, base: int): seq<Link> {
    if chain == [] then []
    else Kept(chain[..|chain| - 1], base) + if chain[|chain| - 1].no > base then [chain[|chain| - 1]] else []
  }

  /** A checkpoint that places becomes the one held and cuts the chain to the ops past its base,
      unless the op held at that base has another hash. A base below 0 fails its own check. */
  function Arrive(r: Register, c: Checkpoint): (Register, Answer) {
    if c.floor.base < 0 then (r, Unverified)
    else
      match Place(c, r.held)
      case Duplicate => (r, Repeated)
      case Seen => (r, Under)
      case Fork => (r, Equivocation)
      case ChainBreak => (r, Broken)
      case Rewrite => (r, Rewritten)
      case Placed =>
        var at := OpAt(r.chain, c.floor.base);
        if at.Some? && Lands(c.floor, at.value) == Forked then (r, Equivocation)
        else
          var tip := if r.tip.Some? && r.tip.value.base > c.floor.base then r.tip.value else c.floor;
          (Register(Some(c), Kept(r.chain, c.floor.base), Some(tip)), Appended)
  }

  /** An op past the floor is appended as the tip's next, or the chain's first. */
  function Take(r: Register, op: Link): (Register, Answer) {
    if r.held.Some? && Lands(r.held.value.floor, op) == Covered then (r, Under)
    else if r.held.Some? && Lands(r.held.value.floor, op) == Forked then (r, Equivocation)
    else
      var more := Register(r.held, r.chain + [op], Some(Floor(op.no, op.hash)));
      match r.tip
      case None => if op.no != 0 then (r, Gap) else (more, Appended)
      case Some(tip) =>
        if op.no <= tip.base then
          var at := OpAt(r.chain, op.no);
          (r, if at.Some? && at.value.hash == op.hash then Repeated else Equivocation)
        else if op.no != tip.base + 1 then (r, Gap)
        else if op.prev.Some? && op.prev.value != tip.hash then (r, Broken)
        else (more, Appended)
  }

  datatype Arrival = CheckpointIn(checkpoint: Checkpoint) | OpIn(op: Link)

  function Ingest(r: Register, a: Arrival): (Register, Answer) {
    match a case CheckpointIn(c) => Arrive(r, c) case OpIn(op) => Take(r, op)
  }

  function IngestAll(r: Register, arrivals: seq<Arrival>): Register {
    if arrivals == [] then r else Ingest(IngestAll(r, arrivals[..|arrivals| - 1]), arrivals[|arrivals| - 1]).0
  }

  // Any arrivals.

  /** The seq a register's chain starts at. */
  function Start(r: Register): int {
    match r.held case None => 0 case Some(c) => c.floor.base + 1
  }

  /** The chain is whole: from its start, by seq, each op on the one before it or on the floor. */
  ghost predicate Sound(r: Register) {
    && Start(r) >= 0
    && BySeq(r.chain, Start(r)) && Linked(r.chain)
    && r.tip == (if r.chain != [] then Some(Floor(r.chain[|r.chain| - 1].no, r.chain[|r.chain| - 1].hash))
                 else if r.held.Some? then Some(r.held.value.floor) else None)
    && (r.held.Some? && r.chain != [] ==> On(r.chain[0], r.held.value.floor.hash))
  }

  ghost predicate BySeq(chain: seq<Link>, start: int) {
    forall i | 0 <= i < |chain| :: chain[i].no == start + i
  }

  ghost predicate Linked(chain: seq<Link>) {
    forall i | 0 < i < |chain| :: On(chain[i], chain[i - 1].hash)
  }

  predicate On(op: Link, hash: seq<byte>) {
    op.prev.Some? ==> op.prev.value == hash
  }

  /** `later` may stand where `earlier` did: no seq or base falls, a base keeps its hash, and an op goes
      only under a base, at it only under its own hash. */
  ghost predicate Onward(earlier: Register, later: Register) {
    && (earlier.held.Some? ==> later.held.Some? && CheckpointOnward(earlier.held.value, later.held.value))
    && forall op | op in earlier.chain && op !in later.chain :: later.held.Some? && GoneUnder(op, later.held.value.floor)
  }

  predicate CheckpointOnward(earlier: Checkpoint, later: Checkpoint) {
    && later.no >= earlier.no && (later.no == earlier.no ==> later == earlier)
    && later.floor.base >= earlier.floor.base && (later.floor.base == earlier.floor.base ==> later.floor.hash == earlier.floor.hash)
  }

  predicate GoneUnder(op: Link, floor: Floor) {
    Lands(floor, op) == Covered
  }

  lemma {:induction false} KeptIs(chain: seq<Link>, start: int, base: int)
    requires base >= start - 1 && BySeq(chain, start)
    ensures Kept(chain, base) == if base - start + 1 <= |chain| then chain[base - start + 1..] else []
  {
    if chain != [] {
      var init, op := chain[..|chain| - 1], chain[|chain| - 1];
      KeptIs(init, start, base);
      var n := base - start + 1;
      if n <= |init| { assert chain[n..] == init[n..] + [op]; }
    }
  }

  lemma IngestKeeps(r: Register, a: Arrival)
    requires Sound(r)
    ensures Sound(Ingest(r, a).0) && Onward(r, Ingest(r, a).0)
    ensures forall op | op in Ingest(r, a).0.chain :: op in r.chain || a == OpIn(op)
  {
    hide Sound, Onward, Arrive, Take;
    OnwardItself(r);
    match a
    case OpIn(op) => if Take(r, op).0 != r { TakingKeeps(r, op); }
    case CheckpointIn(c) => if Arrive(r, c).0 != r { PlacingKeeps(r, c); }
  }

  lemma TakingKeeps(r: Register, op: Link)
    requires Sound(r) && Take(r, op).0 != r
    ensures Sound(Take(r, op).0) && Onward(r, Take(r, op).0)
    ensures Take(r, op).0.chain == r.chain + [op]
  {
    var r' := Take(r, op).0;
    assert op.no == Start(r) + |r.chain|;
    OnwardAs(r, r');
  }

  lemma OnwardAs(r: Register, r': Register)
    requires r'.held == r.held && r.chain <= r'.chain
    ensures Onward(r, r')
  {
    forall op | op in r.chain ensures op in r'.chain {
      var i :| 0 <= i < |r.chain| && r.chain[i] == op;
      assert r'.chain[i] == op;
    }
  }

  /** How many ops a checkpoint placed cuts. */
  function Cut(r: Register, c: Checkpoint): int {
    c.floor.base - Start(r) + 1
  }

  lemma Placing(r: Register, c: Checkpoint)
    requires Arrive(r, c).0 != r
    ensures var at, tip := OpAt(r.chain, c.floor.base), if r.tip.Some? && r.tip.value.base > c.floor.base then r.tip.value else c.floor;
      && c.floor.base >= 0 && (at.Some? ==> Lands(c.floor, at.value) != Forked)
      && Arrive(r, c).0 == Register(Some(c), Kept(r.chain, c.floor.base), Some(tip))
    ensures r.held.Some? ==> CheckpointOnward(r.held.value, c)
  {
    hide Kept, OpAt, Lands;
  }

  lemma PlacedIs(r: Register, c: Checkpoint)
    requires Sound(r) && Arrive(r, c).0 != r
    ensures var n, r' := Cut(r, c), Arrive(r, c).0;
      && n >= 0 && c.floor.base >= 0 && r'.held == Some(c) && r'.chain == (if n <= |r.chain| then r.chain[n..] else [])
      && r'.tip == Some(if r.tip.Some? && r.tip.value.base > c.floor.base then r.tip.value else c.floor)
      && (0 < n <= |r.chain| ==> r.chain[n - 1].hash == c.floor.hash)
      && (r.held.Some? ==> CheckpointOnward(r.held.value, c))
  {
    hide Arrive, Place, Kept, OpAt, BySeq, Linked, On;
    Placing(r, c);
    var n := Cut(r, c);
    KeptIs(r.chain, Start(r), c.floor.base);
    if 0 < n <= |r.chain| {
      OpAtOnly(r.chain, Start(r), n - 1);
    }
  }

  lemma PlacingKeeps(r: Register, c: Checkpoint)
    requires Sound(r) && Arrive(r, c).0 != r
    ensures Sound(Arrive(r, c).0) && Onward(r, Arrive(r, c).0)
    ensures forall op | op in Arrive(r, c).0.chain :: op in r.chain
  {
    hide Arrive, Sound, CheckpointOnward, GoneUnder, Cut;
    PlacedIs(r, c);
    PlacedSound(r, c);
    forall op | op in r.chain && op !in Arrive(r, c).0.chain ensures GoneUnder(op, c.floor) {
      DroppedUnder(r, c, op);
    }
  }

  lemma PlacedSound(r: Register, c: Checkpoint)
    requires Sound(r) && Arrive(r, c).0 != r
    ensures Sound(Arrive(r, c).0)
  {
    hide Arrive, CheckpointOnward, On;
    PlacedIs(r, c);
    var n, r' := Cut(r, c), Arrive(r, c).0;
    if n < |r.chain| {
      assert Linked(r'.chain) by {
        forall i | 0 < i < |r'.chain| ensures On(r'.chain[i], r'.chain[i - 1].hash) {
          assert r'.chain[i] == r.chain[n + i] && r'.chain[i - 1] == r.chain[n + i - 1];
        }
      }
      FirstOn(r, c);
    }
  }

  lemma DroppedUnder(r: Register, c: Checkpoint, op: Link)
    requires Sound(r) && Arrive(r, c).0 != r && op in r.chain
    ensures op in Arrive(r, c).0.chain || GoneUnder(op, c.floor)
  {
    hide Arrive, CheckpointOnward, On;
    PlacedIs(r, c);
    var n, r' := Cut(r, c), Arrive(r, c).0;
    var i :| 0 <= i < |r.chain| && r.chain[i] == op;
    if n <= i {
      assert r'.chain[i - n] == op;
    }
  }

  /** The first op a checkpoint leaves is on its floor. */
  lemma FirstOn(r: Register, c: Checkpoint)
    requires Sound(r) && Arrive(r, c).0 != r && 0 <= Cut(r, c) < |r.chain|
    ensures On(r.chain[Cut(r, c)], c.floor.hash)
  {
    hide Arrive, On;
    PlacedIs(r, c);
    var n := Cut(r, c);
    if n > 0 {
      assert On(r.chain[n], r.chain[n - 1].hash);
    }
  }

  lemma OpAtOnly(chain: seq<Link>, start: int, i: nat)
    requires i < |chain| && BySeq(chain, start)
    ensures OpAt(chain, start + i) == Some(chain[i])
  {
    assert chain[i] in chain;
  }

  lemma OnwardAgain(a: Register, b: Register, c: Register)
    requires Onward(a, b) && Onward(b, c)
    ensures Onward(a, c)
  {
    forall op | op in a.chain && op !in c.chain ensures c.held.Some? && GoneUnder(op, c.held.value.floor) {
      assert op in b.chain || (b.held.Some? && GoneUnder(op, b.held.value.floor));
    }
  }

  /** Over any arrivals, checkpoints and ops, the held seq and base only rise, a base keeps its hash,
      the chain stays whole from its floor, and an op held is let go only under a floor that agrees
      with it. */
  lemma {:induction false} NeverFalls(r: Register, arrivals: seq<Arrival>)
    requires Sound(r)
    ensures Sound(IngestAll(r, arrivals)) && Onward(r, IngestAll(r, arrivals))
    ensures forall op | op in IngestAll(r, arrivals).chain :: op in r.chain || OpIn(op) in arrivals
  {
    hide Ingest, Sound, Onward;
    if arrivals == [] {
      OnwardItself(r);
    } else {
      var init, a := arrivals[..|arrivals| - 1], arrivals[|arrivals| - 1];
      assert arrivals == init + [a];
      NeverFalls(r, init);
      var before := IngestAll(r, init);
      IngestKeeps(before, a);
      OnwardAgain(r, before, Ingest(before, a).0);
    }
  }

  lemma OnwardItself(r: Register)
    ensures Onward(r, r)
  {
  }

  // One node's own.

  /** A chain of checkpoints as its node makes them: each names the one before it, and its base is
      past that one's, or its own again. */
  ghost predicate Honest(own: seq<Checkpoint>) {
    && (forall i | 0 <= i < |own| :: own[i].no == own[0].no + i)
    && (forall i | 0 < i < |own| :: own[i].prev == Some(own[i - 1].hash))
    && (forall i, j | 0 <= i < j < |own| :: own[i].floor.base <= own[j].floor.base)
  }

  /** The ops its node makes, each on the one before it. */
  ghost predicate Line(line: seq<Link>) {
    && (forall j | 0 <= j < |line| :: line[j].no == j)
    && (forall j | 0 < j < |line| :: line[j].prev == Some(line[j - 1].hash))
  }

  /** `floor` is at an op of the line. */
  predicate Of(line: seq<Link>, floor: Floor) {
    0 <= floor.base < |line| && floor.hash == line[floor.base].hash
  }

  ghost predicate Makes(own: seq<Checkpoint>, line: seq<Link>) {
    Honest(own) && Line(line) && forall i | 0 <= i < |own| :: Of(line, own[i].floor)
  }

  predicate MadeBy(own: seq<Checkpoint>, line: seq<Link>, a: Arrival) {
    match a case CheckpointIn(c) => c in own case OpIn(op) => op in line
  }

  /** All a register holds is the node's. */
  ghost predicate Owned(own: seq<Checkpoint>, line: seq<Link>, r: Register) {
    (r.held.Some? ==> r.held.value in own) && (forall op | op in r.chain :: op in line) && (r.tip.Some? ==> Of(line, r.tip.value))
  }

  ghost predicate Newest(arrivals: seq<Arrival>, held: Option<Checkpoint>) {
    && (held.Some? ==> CheckpointIn(held.value) in arrivals)
    && forall c | CheckpointIn(c) in arrivals :: held.Some? && c.no <= held.value.no
  }

  /** One of the node's own: none is told a fork, a break or a rewrite. */
  lemma TakesHonest(own: seq<Checkpoint>, line: seq<Link>, r: Register, a: Arrival)
    requires Makes(own, line) && Sound(r) && Owned(own, line, r) && MadeBy(own, line, a)
    ensures var (r', answer) := Ingest(r, a);
      && Owned(own, line, r') && answer in {Appended, Repeated, Under, Gap}
      && r'.held == if a.CheckpointIn? && (r.held.None? || a.checkpoint.no > r.held.value.no) then Some(a.checkpoint) else r.held
  {
    match a
    case OpIn(op) => TakesOp(own, line, r, op);
    case CheckpointIn(c) => TakesCheckpoint(own, line, r, c);
  }

  lemma TakesOp(own: seq<Checkpoint>, line: seq<Link>, r: Register, op: Link)
    requires Makes(own, line) && Sound(r) && Owned(own, line, r) && op in line
    ensures var (r', answer) := Take(r, op);
      Owned(own, line, r') && answer in {Appended, Repeated, Under, Gap} && r'.held == r.held
  {
    hide Sound, OpAt, Honest;
    var j :| 0 <= j < |line| && line[j] == op;
    if r.held.Some? { HeldOf(own, line, r); }
    if r.tip.Some? && Start(r) <= op.no <= r.tip.value.base { TipReaches(r, op.no); }
  }

  lemma HeldOf(own: seq<Checkpoint>, line: seq<Link>, r: Register)
    requires Makes(own, line) && Owned(own, line, r) && r.held.Some?
    ensures Of(line, r.held.value.floor)
  {
    hide Honest, Line, Of;
    var i :| 0 <= i < |own| && own[i] == r.held.value;
  }

  /** The chain holds every seq from its start to its tip. */
  lemma TipReaches(r: Register, no': int)
    requires Sound(r) && r.tip.Some? && Start(r) <= no' <= r.tip.value.base
    ensures OpAt(r.chain, no').Some?
  {
    OpAtOnly(r.chain, Start(r), no' - Start(r));
  }

  lemma TakesCheckpoint(own: seq<Checkpoint>, line: seq<Link>, r: Register, c: Checkpoint)
    requires Makes(own, line) && Sound(r) && Owned(own, line, r) && c in own
    ensures var (r', answer) := Arrive(r, c);
      && Owned(own, line, r') && answer in {Appended, Repeated, Under}
      && r'.held == if r.held.None? || c.no > r.held.value.no then Some(c) else r.held
  {
    hide Kept;
    var j :| 0 <= j < |own| && own[j] == c;
    assert Of(line, c.floor);
    if r.held.Some? {
      var i :| 0 <= i < |own| && own[i] == r.held.value;
      assert own[i].no == own[0].no + i && c.no == own[0].no + j;
      assert Of(line, own[i].floor);
    }
    var at := OpAt(r.chain, c.floor.base);
    if at.Some? {
      assert at.value in line;
    }
    if Arrive(r, c).0 != r { PlacingKeeps(r, c); }
  }

  /** Given one node's checkpoints and ops in any order, with repeats and gaps, the register holds the
      newest checkpoint that came, and no arrival is told a fork, a break or a rewrite. */
  lemma {:induction false} HoldsTheNewest(own: seq<Checkpoint>, line: seq<Link>, arrivals: seq<Arrival>)
    requires Makes(own, line) && forall i | 0 <= i < |arrivals| :: MadeBy(own, line, arrivals[i])
    ensures Sound(IngestAll(NONE, arrivals)) && Owned(own, line, IngestAll(NONE, arrivals))
    ensures Newest(arrivals, IngestAll(NONE, arrivals).held)
    ensures forall i | 0 <= i < |arrivals| :: Ingest(IngestAll(NONE, arrivals[..i]), arrivals[i]).1 in {Appended, Repeated, Under, Gap}
  {
    hide Ingest, Sound, Owned, Makes, MadeBy;
    if arrivals == [] {
      NoneIsSound(own, line);
    } else {
      var n := |arrivals| - 1;
      var init, a := arrivals[..n], arrivals[n];
      assert arrivals == init + [a];
      HoldsTheNewest(own, line, init);
      TakesHonest(own, line, IngestAll(NONE, init), a);
      IngestKeeps(IngestAll(NONE, init), a);
      forall i | 0 <= i <= n ensures Ingest(IngestAll(NONE, arrivals[..i]), arrivals[i]).1 in {Appended, Repeated, Under, Gap} {
        if i < n { assert init[..i] == arrivals[..i] && init[i] == arrivals[i]; }
      }
    }
  }

  lemma NoneIsSound(own: seq<Checkpoint>, line: seq<Link>)
    ensures Sound(NONE) && Owned(own, line, NONE)
  {
  }
}

/** The same register in place. */
module CheckpointHolder {
  import opened Wrappers
  import opened Bytes
  import R = CheckpointRegister
  import opened CheckpointRegister

  class Holder {
    var held: Option<Checkpoint>
    var chain: seq<Link>
    var tip: Option<Floor>

    ghost function Now(): Register
      reads this
    {
      Register(held, chain, tip)
    }

    constructor ()
      ensures Now() == NONE
    {
      held, chain, tip := None, [], None;
    }

    method Find(no': int) returns (at: Option<Link>)
      ensures at == OpAt(chain, no')
    {
      for i := 0 to |chain|
        invariant OpAt(chain, no') == OpAt(chain[i..], no')
      {
        if chain[i].no == no' {
          return Some(chain[i]);
        }
        assert chain[i..][1..] == chain[i + 1..];
      }
      assert chain[|chain|..] == [];
      return None;
    }

    method Retain(base: int)
      modifies this`chain
      ensures chain == Kept(old(chain), base)
    {
      var kept: seq<Link> := [];
      for i := 0 to |chain|
        invariant chain == old(chain) && kept == Kept(chain[..i], base)
      {
        assert chain[..i + 1][..i] == chain[..i];
        if chain[i].no > base {
          kept := kept + [chain[i]];
        }
      }
      assert chain[..|chain|] == chain;
      chain := kept;
    }

    method Place(c: Checkpoint) returns (answer: Answer)
      modifies this
      ensures (Now(), answer) == Arrive(old(Now()), c)
    {
      if c.floor.base < 0 {
        return Unverified;
      }
      match R.Place(c, held) {
        case Duplicate => return Repeated;
        case Seen => return Under;
        case Fork => return Equivocation;
        case ChainBreak => return Broken;
        case Rewrite => return Rewritten;
        case Placed =>
      }
      var at := Find(c.floor.base);
      if at.Some? && Lands(c.floor, at.value) == Forked {
        return Equivocation;
      }
      Retain(c.floor.base);
      if tip.None? || tip.value.base <= c.floor.base {
        tip := Some(c.floor);
      }
      held := Some(c);
      return Appended;
    }

    method Link(op: Link) returns (answer: Answer)
      modifies this
      ensures (Now(), answer) == Take(old(Now()), op)
    {
      if held.Some? {
        match Lands(held.value.floor, op) {
          case Above =>
          case Covered => return Under;
          case Forked => return Equivocation;
        }
      }
      if tip.Some? {
        if op.no <= tip.value.base {
          var at := Find(op.no);
          return if at.Some? && at.value.hash == op.hash then Repeated else Equivocation;
        }
        if op.no != tip.value.base + 1 {
          return Gap;
        }
        if op.prev.Some? && op.prev.value != tip.value.hash {
          return Broken;
        }
      } else if op.no != 0 {
        return Gap;
      }
      chain, tip := chain + [op], Some(Floor(op.no, op.hash));
      return Appended;
    }
  }
}
