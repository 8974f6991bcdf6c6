/** What a session keeps over every run, and why every replica folds alike. */
module SessionLaws {
  import opened Wrappers
  import opened Bytes
  import opened Text
  import opened Ops
  import opened Sessions
  import SessionLog

  // What every step keeps.

  ghost predicate Keyed(logs: Logs) {
    forall k, o | k in logs && o in logs[k] :: KeyOf(o) == k
  }

  ghost predicate Chained(logs: Logs) {
    Keyed(logs) && forall k | k in logs :: Contiguous(logs[k])
  }

  ghost predicate Holds(logs: Logs, o: Op) {
    o in LogOf(logs, KeyOf(o))
  }

  /** Every chain is contiguous, and the clock is at least every op's. */
  ghost predicate Sound(s: State) {
    Chained(s.logs) && forall k, o | k in s.logs && o in s.logs[k] :: o.lamport <= s.lamport
  }

  datatype Event =
    | Local(z: Zone, shape: Shape, payload: seq<byte>, frontier: seq<Head>)
    | Remote(ops: seq<Op>)
    | Refusal(op: Op)
    | Resumption(z: Zone)

  function Next(s: State, hash: Op -> seq<byte>, swmr: seq<byte> -> bool, e: Event): State {
    match e
    case Local(z, shape, payload, frontier) => Append(s, hash, swmr, z, shape, payload, frontier).0
    case Remote(ops) => ApplyRemote(s, swmr, ops).0
    case Refusal(op) => Refuse(s, op)
    case Resumption(z) => Resume(s, z)
  }

  function After(s: State, hash: Op -> seq<byte>, swmr: seq<byte> -> bool, events: seq<Event>): State {
    if events == [] then s
    else Next(After(s, hash, swmr, events[..|events| - 1]), hash, swmr, events[|events| - 1])
  }

  function Run(origin: string, hash: Op -> seq<byte>, swmr: seq<byte> -> bool, events: seq<Event>): State {
    After(State(origin, 0, map[], map[]), hash, swmr, events)
  }

  lemma StoredKeeps(s: State, op: Op, lamport: int)
    requires Sound(s) && lamport >= s.lamport && (Stored(s.logs, op).1 ==> lamport >= op.lamport)
    ensures Sound(s.(logs := Stored(s.logs, op).0, lamport := lamport))
  {
    var logs := Stored(s.logs, op).0;
    var k := KeyOf(op);
    forall j, o | j in logs && o in logs[j] ensures KeyOf(o) == j && o.lamport <= lamport {
      assert j == k || logs[j] == s.logs[j];
    }
  }

  lemma {:induction false} TakeAllKeeps(s: State, ops: seq<Op>)
    requires Sound(s)
    ensures Sound(TakeAll(s, ops)) && TakeAll(s, ops).origin == s.origin
  {
    if ops != [] {
      var init, op := ops[..|ops| - 1], ops[|ops| - 1];
      TakeAllKeeps(s, init);
      var before := TakeAll(s, init);
      StoredKeeps(before, op, Take(before, op).lamport);
    }
  }

  lemma NextKeeps(s: State, hash: Op -> seq<byte>, swmr: seq<byte> -> bool, e: Event)
    requires Sound(s)
    ensures Sound(Next(s, hash, swmr, e)) && Next(s, hash, swmr, e).origin == s.origin
  {
    match e
    case Local(z, shape, payload, frontier) =>
      StoredKeeps(s, Made(s, hash, z, shape, payload, frontier), s.lamport + 1);
    case Remote(ops) => TakeAllKeeps(s, ops);
    case Refusal(op) =>
      var s' := Refuse(s, op);
      if s' != s {
        var k := KeyOf(op);
        forall j, o | j in s'.logs && o in s'.logs[j] ensures o in s.logs[j] {
        }
        assert s'.logs[k] == s.logs[k][..|s'.logs[k]|];
        assert Contiguous(s.logs[k]);
      }
    case Resumption(_) =>
  }

  lemma {:induction false} AfterKeeps(s: State, hash: Op -> seq<byte>, swmr: seq<byte> -> bool, events: seq<Event>)
    requires Sound(s)
    ensures Sound(After(s, hash, swmr, events)) && After(s, hash, swmr, events).origin == s.origin
  {
    hide Sound, Next;
    if events != [] {
      AfterKeeps(s, hash, swmr, events[..|events| - 1]);
      NextKeeps(After(s, hash, swmr, events[..|events| - 1]), hash, swmr, events[|events| - 1]);
    }
  }

  /** Every run keeps it. */
  lemma RunKeeps(origin: string, hash: Op -> seq<byte>, swmr: seq<byte> -> bool, events: seq<Event>)
    ensures Sound(Run(origin, hash, swmr, events)) && Run(origin, hash, swmr, events).origin == origin
  {
    AfterKeeps(State(origin, 0, map[], map[]), hash, swmr, events);
  }

  // What a zone's listing holds.

  ghost predicate PlainLogs(logs: Logs) {
    forall k, o | k in logs && o in logs[k] :: Plain(ZoneOf(o))
  }

  ghost predicate InZone(logs: Logs, z: Zone, o: Op) {
    Holds(logs, o) && ZoneOf(o) == z
  }

  lemma {:induction false} ConcatHolds(logs: Logs, keys: seq<string>, o: Op)
    requires Keyed(logs)
    ensures o in Concat(logs, keys) <==> KeyOf(o) in keys && Holds(logs, o)
  {
    if keys != [] {
      var init, k := keys[..|keys| - 1], keys[|keys| - 1];
      assert keys == init + [k];
      ConcatHolds(logs, init, o);
      assert o in LogOf(logs, k) ==> KeyOf(o) == k;
    }
  }

  lemma {:induction false} ConcatSlots(logs: Logs, keys: seq<string>, z: Zone)
    requires Chained(logs) && forall i, j | 0 <= i < j < |keys| :: keys[i] != keys[j]
    requires forall k, o | k in keys && o in LogOf(logs, k) :: ZoneOf(o) == z
    ensures SlotsDiffer(Concat(logs, keys))
  {
    if keys != [] {
      var init, k := keys[..|keys| - 1], keys[|keys| - 1];
      assert keys == init + [k];
      ConcatSlots(logs, init, z);
      var a, b := Concat(logs, init), LogOf(logs, k);
      forall i, j | 0 <= i < |a| && 0 <= j < |b| ensures Slot(a[i]) != Slot(b[j]) {
        ConcatHolds(logs, init, a[i]);
        assert a[i] in a && b[j] in b;
        assert KeyOf(a[i]) in keys && a[i] in LogOf(logs, KeyOf(a[i]));
        assert ZoneOf(a[i]) == z && ZoneOf(b[j]) == z;
        assert KeyOf(a[i]) in init && KeyOf(b[j]) == k && k !in init;
      }
      assert Contiguous(b);
      forall i, j | 0 <= i < j < |a + b| ensures Slot((a + b)[i]) != Slot((a + b)[j]) {
        if i >= |a| {
          assert b[i - |a|].no != b[j - |a|].no;
        }
      }
    }
  }

  /** With no NUL in shares and streams, a zone's fold sees exactly that zone's ops, each once,
      whatever the order its logs are listed in. */
  lemma ListingIsTheZone(logs: Logs, z: Zone, ops: seq<Op>)
    requires Chained(logs) && PlainLogs(logs) && Plain(z) && Listing(logs, PrefixOf(z), ops)
    ensures SlotsDiffer(ops) && forall o :: o in ops <==> InZone(logs, z, o)
  {
    var keys :| Lists(logs, PrefixOf(z), keys) && ops == Concat(logs, keys);
    forall k, o | k in logs && o in logs[k] ensures PrefixOf(z) <= k <==> ZoneOf(o) == z {
      assert Plain(ZoneOf(o)) && KeyOf(o) == k;
      KeysNameChains(z.share, z.gladeId, z.key, o.origin, o.share, o.gladeId, o.key, o.origin);
    }
    ConcatSlots(logs, keys, z);
    forall o ensures o in ops <==> InZone(logs, z, o) {
      ConcatHolds(logs, keys, o);
    }
  }

  lemma {:induction false} ShapeOf(ops: seq<Op>, shape: Shape)
    ensures forall o :: o in OfShape(ops, shape) <==> o in ops && o.shape == shape
    ensures SlotsDiffer(ops) ==> SlotsDiffer(OfShape(ops, shape))
  {
    if ops != [] {
      var init, op := ops[..|ops| - 1], ops[|ops| - 1];
      assert ops == init + [op];
      ShapeOf(init, shape);
      if SlotsDiffer(ops) {
        assert SlotsDiffer(init);
        forall o | o in OfShape(init, shape) ensures Slot(o) != Slot(op) {
          var i :| 0 <= i < |init| && init[i] == o;
          assert Slot(ops[i]) != Slot(ops[|init|]);
        }
      }
    }
  }

  lemma {:induction false} FirstSeenOfDistinct(ops: seq<Op>)
    requires SlotsDiffer(ops)
    ensures forall o :: o in FirstSeen(ops) <==> o in ops
  {
    if ops != [] {
      var init, op := ops[..|ops| - 1], ops[|ops| - 1];
      assert ops == init + [op];
      FirstSeenOfDistinct(init);
      forall o | o in init ensures Slot(o) != Slot(op) {
        var i :| 0 <= i < |init| && init[i] == o;
        assert Slot(ops[i]) != Slot(ops[|init|]);
      }
    }
  }

  /** The ops of one shape in a zone: what its fold is over. */
  lemma FoldedOver(logs: Logs, z: Zone, ops: seq<Op>, shape: Shape)
    requires Chained(logs) && PlainLogs(logs) && Plain(z) && Listing(logs, PrefixOf(z), ops)
    ensures forall o :: o in FirstSeen(OfShape(ops, shape)) <==> InZone(logs, z, o) && o.shape == shape
  {
    ListingIsTheZone(logs, z, ops);
    ShapeOf(ops, shape);
    FirstSeenOfDistinct(OfShape(ops, shape));
  }

  /** One origin's values in a zone have distinct lamports. */
  ghost predicate LamportsDiffer(logs: Logs, z: Zone) {
    forall a, b | InZone(logs, z, a) && InZone(logs, z, b) && a.shape == b.shape == Value
      :: a.origin == b.origin && a.lamport == b.lamport ==> a == b
  }

  // What an origin makes of its own chain.

  /** The op a local event makes, if it makes one. */
  function MadeBy(s: State, hash: Op -> seq<byte>, swmr: seq<byte> -> bool, e: Event): seq<Op> {
    if !e.Local? then []
    else match Append(s, hash, swmr, e.z, e.shape, e.payload, e.frontier).1 case Success(op) => [op] case Failure(_) => []
  }

  function MadeIn(origin: string, hash: Op -> seq<byte>, swmr: seq<byte> -> bool, events: seq<Event>): seq<Op> {
    if events == [] then []
    else
      var init, e := events[..|events| - 1], events[|events| - 1];
      MadeIn(origin, hash, swmr, init) + MadeBy(Run(origin, hash, swmr, init), hash, swmr, e)
  }

  ghost predicate Distinct(ops: seq<Op>) {
    forall a, b | a in ops && b in ops && a.lamport == b.lamport :: a == b
  }

  /** Of the chain `k` batches bring only ops this run has made, or of `earlier`, which the clock has
      passed by each op made of `k`. */
  ghost predicate OnlyOwn(origin: string, hash: Op -> seq<byte>, swmr: seq<byte> -> bool, events: seq<Event>, k: string, earlier: seq<Op>) {
    forall i | 0 <= i < |events| ::
      OwnEvent(Run(origin, hash, swmr, events[..i]), hash, swmr, events[i], k, earlier, MadeIn(origin, hash, swmr, events[..i]))
  }

  ghost predicate OwnEvent(s: State, hash: Op -> seq<byte>, swmr: seq<byte> -> bool, e: Event, k: string, earlier: seq<Op>, made: seq<Op>) {
    && (e.Remote? && ApplyRemote(s, swmr, e.ops).1 ==> forall o | o in e.ops && KeyOf(o) == k :: o in earlier || o in made)
    && forall m, o | m in MadeBy(s, hash, swmr, e) && KeyOf(m) == k && o in earlier :: o.lamport <= s.lamport
  }

  /** The chain `k` holds ops of `earlier` and `made` only, whose lamports differ, those made of it
      above the earlier and none above the clock. */
  ghost predicate Owned(s: State, k: string, earlier: seq<Op>, made: seq<Op>) {
    && (forall o | o in LogOf(s.logs, k) :: o in earlier || o in made)
    && Distinct(made) && (forall m | m in made :: m.lamport <= s.lamport)
    && forall m, o | m in made && KeyOf(m) == k && o in earlier :: o.lamport < m.lamport
  }

  lemma {:induction false} TakeAllBrings(s: State, ops: seq<Op>, k: string)
    ensures forall o | o in LogOf(TakeAll(s, ops).logs, k) :: o in LogOf(s.logs, k) || o in ops
    ensures TakeAll(s, ops).unresumed == s.unresumed && TakeAll(s, ops).origin == s.origin
  {
    hide KeyOf;
    if ops != [] {
      var init, op := ops[..|ops| - 1], ops[|ops| - 1];
      assert ops == init + [op];
      TakeAllBrings(s, init, k);
    }
  }

  lemma {:induction false} ClockRises(s: State, ops: seq<Op>)
    ensures TakeAll(s, ops).lamport >= s.lamport
  {
    hide KeyOf;
    if ops != [] {
      ClockRises(s, ops[..|ops| - 1]);
    }
  }

  lemma OwnedStep(s: State, hash: Op -> seq<byte>, swmr: seq<byte> -> bool, e: Event, k: string, earlier: seq<Op>, made: seq<Op>)
    requires Owned(s, k, earlier, made) && OwnEvent(s, hash, swmr, e, k, earlier, made) && Keyed(Next(s, hash, swmr, e).logs)
    ensures Owned(Next(s, hash, swmr, e), k, earlier, made + MadeBy(s, hash, swmr, e))
  {
    hide KeyOf, Supported, Stored, IndexOf;
    var s', now := Next(s, hash, swmr, e), MadeBy(s, hash, swmr, e);
    match e
    case Local(z, shape, payload, frontier) =>
      if now != [] {
        StoringAdds(s.logs, now[0], k);
        forall m, o | m in made + now && KeyOf(m) == k && o in earlier ensures o.lamport < m.lamport {
          assert m in made || m in now;
        }
      }
    case Remote(ops) =>
      TakeAllBrings(s, ops, k);
      ClockRises(s, ops);
      assert made + [] == made;
      forall o | o in LogOf(s'.logs, k) ensures KeyOf(o) == k {
        assert k in s'.logs;
      }
    case Refusal(op) =>
      assert made + [] == made;
    case Resumption(_) =>
      assert made + [] == made;
  }

  lemma StoringAdds(logs: Logs, op: Op, k: string)
    ensures forall o | o in LogOf(Stored(logs, op).0, k) :: o in LogOf(logs, k) || o == op
  {
    hide KeyOf;
  }

  /** The ops an origin's chain holds have distinct lamports in every run whose batches bring the chain
      no op but those made: in the run, however many a refusal dropped before; or by a session before
      it, once the clock has passed them when the run makes its own. */
  lemma {:induction false} OwnLamportsDiffer(origin: string, hash: Op -> seq<byte>, swmr: seq<byte> -> bool, events: seq<Event>,
                                             k: string, earlier: seq<Op>)
    requires Distinct(earlier) && OnlyOwn(origin, hash, swmr, events, k, earlier)
    ensures Owned(Run(origin, hash, swmr, events), k, earlier, MadeIn(origin, hash, swmr, events))
    ensures Distinct(LogOf(Run(origin, hash, swmr, events).logs, k))
  {
    hide Sound, Next, Owned, OwnEvent, Distinct, KeyOf;
    if events == [] {
      NoneOwned(origin, k, earlier);
    } else {
      var init, e := events[..|events| - 1], events[|events| - 1];
      forall i | 0 <= i < |init|
        ensures OwnEvent(Run(origin, hash, swmr, init[..i]), hash, swmr, init[i], k, earlier, MadeIn(origin, hash, swmr, init[..i]))
      {
        assert init[..i] == events[..i] && init[i] == events[i];
      }
      OwnLamportsDiffer(origin, hash, swmr, init, k, earlier);
      RunKeeps(origin, hash, swmr, events);
      SoundIsKeyed(Run(origin, hash, swmr, events));
      OwnedStep(Run(origin, hash, swmr, init), hash, swmr, e, k, earlier, MadeIn(origin, hash, swmr, init));
    }
    RunKeeps(origin, hash, swmr, events);
    SoundIsKeyed(Run(origin, hash, swmr, events));
    OwnedDiffer(Run(origin, hash, swmr, events), k, earlier, MadeIn(origin, hash, swmr, events));
  }

  lemma NoneOwned(origin: string, k: string, earlier: seq<Op>)
    ensures Owned(State(origin, 0, map[], map[]), k, earlier, [])
  {
  }

  lemma SoundIsKeyed(s: State)
    requires Sound(s)
    ensures Keyed(s.logs)
  {
  }

  lemma OwnedDiffer(s: State, k: string, earlier: seq<Op>, made: seq<Op>)
    requires Owned(s, k, earlier, made) && Distinct(earlier) && Keyed(s.logs)
    ensures Distinct(LogOf(s.logs, k))
  {
    hide KeyOf;
    var log := LogOf(s.logs, k);
    forall o | o in log ensures KeyOf(o) == k {
      assert k in s.logs;
    }
  }

  ghost predicate Rises(log: seq<Op>) {
    forall i, j | 0 <= i < j < |log| :: log[i].lamport < log[j].lamport
  }

  /** Each op of the chain `k` that taking `ops` stores has a lamport above the chain's last. */
  ghost predicate StoresAbove(s: State, ops: seq<Op>, k: string) {
    ops == []
    || var init, op := ops[..|ops| - 1], ops[|ops| - 1];
       var logs := TakeAll(s, init).logs;
       var log := LogOf(logs, k);
       && StoresAbove(s, init, k)
       && (KeyOf(op) == k && Stored(logs, op).1 && log != [] ==> log[|log| - 1].lamport < op.lamport)
  }

  ghost predicate BringsAbove(s: State, swmr: seq<byte> -> bool, e: Event, k: string) {
    e.Remote? && ApplyRemote(s, swmr, e.ops).1 ==> StoresAbove(s, e.ops, k)
  }

  lemma RisesOne(log: seq<Op>, op: Op)
    ensures Rises(log + [op]) <==> Rises(log) && (log != [] ==> log[|log| - 1].lamport < op.lamport)
  {
    var more := log + [op];
    if Rises(more) {
      forall i, j | 0 <= i < j < |log| ensures log[i].lamport < log[j].lamport {
        assert more[i] == log[i] && more[j] == log[j];
      }
      if log != [] {
        assert more[|log| - 1] == log[|log| - 1] && more[|log|] == op;
      }
    }
  }

  lemma {:induction false} TakingRises(s: State, ops: seq<Op>, k: string)
    requires Rises(LogOf(s.logs, k))
    ensures Rises(LogOf(TakeAll(s, ops).logs, k)) <==> StoresAbove(s, ops, k)
  {
    hide KeyOf, Rises;
    if ops != [] {
      var init, op := ops[..|ops| - 1], ops[|ops| - 1];
      TakingRises(s, init, k);
      RisesOne(LogOf(TakeAll(s, init).logs, k), op);
    }
  }

  lemma OwnRiseStep(s: State, hash: Op -> seq<byte>, swmr: seq<byte> -> bool, e: Event, k: string)
    requires Sound(s) && Rises(LogOf(s.logs, k))
    ensures Rises(LogOf(Next(s, hash, swmr, e).logs, k)) <==> BringsAbove(s, swmr, e, k)
  {
    hide KeyOf, StoresAbove, Rises, Supported, Made;
    var log := LogOf(s.logs, k);
    assert forall o | o in log :: o.lamport <= s.lamport;
    match e
    case Local(z, shape, payload, frontier) =>
      var op := Made(s, hash, z, shape, payload, frontier);
      MadePast(s, hash, z, shape, payload, frontier);
      RisesOne(log, op);
    case Remote(ops) => TakingRises(s, ops, k);
    case Refusal(op) =>
      if op in log { CutRises(log, IndexOf(log, op)); }
    case Resumption(_) =>
  }

  lemma MadePast(s: State, hash: Op -> seq<byte>, z: Zone, shape: Shape, payload: seq<byte>, frontier: seq<Head>)
    ensures Made(s, hash, z, shape, payload, frontier).lamport == s.lamport + 1
  {
  }

  lemma CutRises(log: seq<Op>, n: nat)
    requires Rises(log) && n <= |log|
    ensures Rises(log[..n])
  {
  }

  /** A chain's lamports rise all through a run exactly when each op a batch stores on it is above its
      last; nothing else a session does breaks the rise. */
  lemma {:induction false} ChainRises(origin: string, hash: Op -> seq<byte>, swmr: seq<byte> -> bool, events: seq<Event>, k: string)
    ensures (forall i | 0 <= i <= |events| :: Rises(LogOf(Run(origin, hash, swmr, events[..i]).logs, k)))
       <==> forall i | 0 <= i < |events| :: BringsAbove(Run(origin, hash, swmr, events[..i]), swmr, events[i], k)
  {
    hide Sound, Next, Rises, BringsAbove, KeyOf, LogOf;
    if events == [] {
      NoneRises(origin, hash, swmr, k);
    } else {
      var n := |events| - 1;
      var init, e := events[..n], events[n];
      ChainRises(origin, hash, swmr, init, k);
      forall i | 0 <= i <= n ensures init[..i] == events[..i] {
      }
      assert events[..n + 1] == events;
      forall i | 0 <= i < n ensures init[i] == events[i] {
      }
      RunKeeps(origin, hash, swmr, init);
      if Rises(LogOf(Run(origin, hash, swmr, init).logs, k)) {
        OwnRiseStep(Run(origin, hash, swmr, init), hash, swmr, e, k);
      }
      assert Run(origin, hash, swmr, events) == Next(Run(origin, hash, swmr, init), hash, swmr, e);
      assert forall i | 0 <= i <= n :: Run(origin, hash, swmr, events[..i]) == Run(origin, hash, swmr, init[..i]);
      assert init[..n] == init;
    }
  }

  lemma NoneRises(origin: string, hash: Op -> seq<byte>, swmr: seq<byte> -> bool, k: string)
    ensures Rises(LogOf(Run(origin, hash, swmr, []).logs, k))
  {
  }

  lemma RunOne(origin: string, hash: Op -> seq<byte>, swmr: seq<byte> -> bool, events: seq<Event>, e: Event)
    ensures var s := Run(origin, hash, swmr, events);
      && Run(origin, hash, swmr, events + [e]) == Next(s, hash, swmr, e)
      && MadeIn(origin, hash, swmr, events + [e]) == MadeIn(origin, hash, swmr, events) + MadeBy(s, hash, swmr, e)
  {
    hide Next, MadeBy;
    assert (events + [e])[..|events|] == events;
  }

  /** An append of a value where the chain is not stopped. */
  lemma Appends(s: State, hash: Op -> seq<byte>, swmr: seq<byte> -> bool, z: Zone, v: seq<byte>, k: string)
    requires k == ChainKey(z.share, z.gladeId, z.key, s.origin) && k !in s.unresumed
    ensures var e := Local(z, Value, v, []);
      var now, s', log := MadeBy(s, hash, swmr, e), Next(s, hash, swmr, e), LogOf(s.logs, k);
      && |now| == 1 && KeyOf(now[0]) == k && now[0].origin == s.origin && now[0].shape == Value
      && now[0].no == (if log == [] then 0 else log[|log| - 1].no + 1) && now[0].lamport == s.lamport + 1
      && s' == s.(logs := s'.logs, lamport := s.lamport + 1) && LogOf(s'.logs, k) == log + now
  {
  }

  lemma ThreeAppends(origin: string, hash: Op -> seq<byte>, swmr: seq<byte> -> bool, z: Zone, v: seq<byte>, k: string)
    requires k == ChainKey(z.share, z.gladeId, z.key, origin)
    ensures var a := Local(z, Value, v, []);
      var s, made := Run(origin, hash, swmr, [a, a, a]), MadeIn(origin, hash, swmr, [a, a, a]);
      && |made| == 3 && LogOf(s.logs, k) == made && s.lamport == 3 && s.origin == origin && s.unresumed == map[]
      && forall i | 0 <= i < 3 :: made[i].no == i && made[i].lamport == i + 1 && KeyOf(made[i]) == k && made[i].origin == origin && made[i].shape == Value
  {
    hide Run, MadeIn, KeyOf, Next, MadeBy;
    var a := Local(z, Value, v, []);
    RunNone(origin, hash, swmr);
    var e1, e2, e3 := [a], [a, a], [a, a, a];
    assert [] + [a] == e1 && e1 + [a] == e2 && e2 + [a] == e3;
    RunOne(origin, hash, swmr, [], a);
    Appends(Run(origin, hash, swmr, []), hash, swmr, z, v, k);
    RunOne(origin, hash, swmr, e1, a);
    Appends(Run(origin, hash, swmr, e1), hash, swmr, z, v, k);
    RunOne(origin, hash, swmr, e2, a);
    Appends(Run(origin, hash, swmr, e2), hash, swmr, z, v, k);
  }

  /** An op that a refusal dropped may come back after the chain has gone on: the rise breaks, though
      the lamports differ. */
  lemma RiseBreaks(origin: string, hash: Op -> seq<byte>, swmr: seq<byte> -> bool, z: Zone, v: seq<byte>)
    ensures var a, k := Local(z, Value, v, []), ChainKey(z.share, z.gladeId, z.key, origin);
      var made := MadeIn(origin, hash, swmr, [a, a, a]);
      && |made| == 3
      && var events := [a, a, a, Refusal(made[1]), Resumption(z), a, Remote([made[2]])];
         var log := LogOf(Run(origin, hash, swmr, events).logs, k);
         && OnlyOwn(origin, hash, swmr, events, k, [])
         && |log| == 3 && log[0].lamport == 1 && log[1].lamport == 4 && log[2].lamport == 3
  {
    hide Run, MadeIn, KeyOf, Next, MadeBy, ChainKey, OwnEvent;
    var a, k := Local(z, Value, v, []), ChainKey(z.share, z.gladeId, z.key, origin);
    ThreeAppends(origin, hash, swmr, z, v, k);
    var e3 := [a, a, a];
    var s3, made := Run(origin, hash, swmr, e3), MadeIn(origin, hash, swmr, e3);
    var e4, e5 := e3 + [Refusal(made[1])], e3 + [Refusal(made[1])] + [Resumption(z)];
    var e6, e7 := e5 + [a], e5 + [a] + [Remote([made[2]])];
    assert e7 == [a, a, a, Refusal(made[1]), Resumption(z), a, Remote([made[2]])];
    RunOne(origin, hash, swmr, e3, Refusal(made[1]));
    RefusesSecond(s3, hash, swmr, made, k);
    RunOne(origin, hash, swmr, e4, Resumption(z));
    ResumesOn(Run(origin, hash, swmr, e4), hash, swmr, z, k);
    RunOne(origin, hash, swmr, e5, a);
    Appends(Run(origin, hash, swmr, e5), hash, swmr, z, v, k);
    RunOne(origin, hash, swmr, e6, Remote([made[2]]));
    BringsBack(Run(origin, hash, swmr, e6), hash, swmr, made[2], k);
    forall i | 0 <= i < |e7|
      ensures OwnEvent(Run(origin, hash, swmr, e7[..i]), hash, swmr, e7[i], k, [], MadeIn(origin, hash, swmr, e7[..i]))
    {
      if i == 6 { assert e7[..6] == e6 && made[2] in MadeIn(origin, hash, swmr, e6); }
      OwnsEvent(Run(origin, hash, swmr, e7[..i]), hash, swmr, e7[i], k, MadeIn(origin, hash, swmr, e7[..i]));
    }
  }

  lemma OwnsEvent(s: State, hash: Op -> seq<byte>, swmr: seq<byte> -> bool, e: Event, k: string, made: seq<Op>)
    requires e.Remote? ==> forall o | o in e.ops :: o in made
    ensures OwnEvent(s, hash, swmr, e, k, [], made)
  {
    hide KeyOf, MadeBy, ApplyRemote;
  }

  lemma ResumesOn(s: State, hash: Op -> seq<byte>, swmr: seq<byte> -> bool, z: Zone, k: string)
    requires k == ChainKey(z.share, z.gladeId, z.key, s.origin)
    ensures var s' := Next(s, hash, swmr, Resumption(z)); s' == s.(unresumed := s'.unresumed) && k !in s'.unresumed
  {
  }

  lemma RunNone(origin: string, hash: Op -> seq<byte>, swmr: seq<byte> -> bool)
    ensures Run(origin, hash, swmr, []) == State(origin, 0, map[], map[]) && MadeIn(origin, hash, swmr, []) == []
  {
  }

  lemma RefusesSecond(s: State, hash: Op -> seq<byte>, swmr: seq<byte> -> bool, made: seq<Op>, k: string)
    requires |made| == 3 && LogOf(s.logs, k) == made && made[0].no != made[1].no && made[1].origin == s.origin && KeyOf(made[1]) == k
    ensures var s' := Next(s, hash, swmr, Refusal(made[1]));
      LogOf(s'.logs, k) == [made[0]] && s'.lamport == s.lamport && s'.origin == s.origin && s'.unresumed == s.unresumed[k := made[1].no]
  {
    hide KeyOf;
    var at := IndexOf(made, made[1]);
    assert made[1] in made;
    assert at == 1;
  }

  lemma BringsBack(s: State, hash: Op -> seq<byte>, swmr: seq<byte> -> bool, op: Op, k: string)
    requires KeyOf(op) == k && op.shape == Value && var log := LogOf(s.logs, k); log != [] && op.no == log[|log| - 1].no + 1
    ensures LogOf(Next(s, hash, swmr, Remote([op])).logs, k) == LogOf(s.logs, k) + [op]
  {
    hide KeyOf;
    assert [op][..0] == [] && TakeAll(s, [op]) == Take(TakeAll(s, []), op);
  }

  /** Where each chain's lamports differ, one origin's in a zone do. */
  lemma DistinctDiffers(logs: Logs, z: Zone)
    requires forall k | k in logs :: Distinct(logs[k])
    ensures LamportsDiffer(logs, z)
  {
  }

  /** Two sessions holding the same logs fold a value alike, whatever the order each lists
      and dedups them in. */
  lemma ValueFoldsAgree(logs: Logs, z: Zone, ops1: seq<Op>, r1: Option<seq<byte>>, ops2: seq<Op>, r2: Option<seq<byte>>)
    requires Chained(logs) && PlainLogs(logs) && Plain(z) && LamportsDiffer(logs, z)
    requires Listing(logs, PrefixOf(z), ops1) && FoldsValue(ops1, r1)
    requires Listing(logs, PrefixOf(z), ops2) && FoldsValue(ops2, r2)
    ensures r1 == r2
  {
    hide FirstSeen, OfShape, Listing, Before, Chained, PlainLogs;
    FoldedOver(logs, z, ops1, Value);
    FoldedOver(logs, z, ops2, Value);
    var live1, live2 := FirstSeen(OfShape(ops1, Value)), FirstSeen(OfShape(ops2, Value));
    assert live1 == live2;
    if r1.Some? {
      var w1 :| w1 in live1 && w1.payload == r1.value && forall o | o in live1 :: !Better(o, w1);
      var w2 :| w2 in live2 && r2 == Some(w2.payload) && forall o | o in live2 :: !Better(o, w2);
      BeforeTotal(w1.origin, w2.origin);
    }
  }

  lemma AllBut(a: seq<Op>, init: seq<Op>, x: Op)
    requires Ordered(a) && a == init + [x]
    ensures forall o :: o in init <==> o in a && o != x
  {
    forall o | o in init ensures o != x {
      var i :| 0 <= i < |init| && init[i] == o;
      assert LogBefore(a[i], a[|init|]);
      SessionLog.LogBeforeTotal(o, x);
    }
  }

  lemma SameLast(a: seq<Op>, b: seq<Op>)
    requires Ordered(a) && Ordered(b) && a != [] && (forall o :: o in a <==> o in b)
    ensures b != [] && a[|a| - 1] == b[|b| - 1]
  {
    hide LogBefore;
    var x := a[|a| - 1];
    assert x in a && x in b;
    var y := b[|b| - 1];
    assert y in b && y in a;
    var i :| 0 <= i < |a| && a[i] == y;
    var j :| 0 <= j < |b| && b[j] == x;
    SessionLog.LogBeforeTotal(x, y);
  }

  /** Two ordered arrangements of the same ops are the same. */
  lemma {:induction false} OrderedOnce(a: seq<Op>, b: seq<Op>)
    requires Ordered(a) && Ordered(b) && (forall o :: o in a <==> o in b)
    ensures a == b
  {
    hide LogBefore;
    if b != [] {
      assert b[|b| - 1] in b;
    }
    if a != [] {
      SameLast(a, b);
      var a', b', x := a[..|a| - 1], b[..|b| - 1], a[|a| - 1];
      assert a == a' + [x] && b == b' + [x];
      AllBut(a, a', x);
      AllBut(b, b', x);
      OrderedOnce(a', b');
    }
  }

  lemma LogFoldsAgree(logs: Logs, z: Zone, ops1: seq<Op>, r1: seq<seq<byte>>, ops2: seq<Op>, r2: seq<seq<byte>>)
    requires Chained(logs) && PlainLogs(logs) && Plain(z)
    requires Listing(logs, PrefixOf(z), ops1) && FoldsLog(ops1, r1)
    requires Listing(logs, PrefixOf(z), ops2) && FoldsLog(ops2, r2)
    ensures r1 == r2
  {
    FoldedOver(logs, z, ops1, Log);
    FoldedOver(logs, z, ops2, Log);
    var live1 :| Dedups(OfShape(ops1, Log), live1) && Ordered(live1) && r1 == Payloads(live1);
    var live2 :| Dedups(OfShape(ops2, Log), live2) && Ordered(live2) && r2 == Payloads(live2);
    forall o ensures o in live1 <==> o in live2 {
      assert o in live1 <==> o in (set x | x in live1);
      assert o in live2 <==> o in (set x | x in live2);
    }
    OrderedOnce(live1, live2);
  }

  // Convergence.

  ghost predicate Prefixes(chains: Logs, logs: Logs) {
    forall k | k in logs :: k in chains && logs[k] <= chains[k]
  }

  /** To a session that holds `held`, `feed` delivers the chains: any interleaving, with repeats, each
      op first arriving after the one before it in its chain, and every op held or arriving. */
  ghost predicate Delivers(chains: Logs, held: Logs, feed: seq<Op>) {
    && (forall i | 0 <= i < |feed| :: Holds(chains, feed[i]))
    && (forall i, j | 0 <= i < |feed| && 0 < j < |LogOf(chains, KeyOf(feed[i]))| && chains[KeyOf(feed[i])][j] == feed[i]
          :: chains[KeyOf(feed[i])][j - 1] in LogOf(held, KeyOf(feed[i])) + feed[..i])
    && (forall k, o | k in chains && o in chains[k] :: o in LogOf(held, k) + feed)
  }

  /** The logs are a prefix of each chain, and hold what was held and what has arrived. */
  ghost predicate Arrived(chains: Logs, held: Logs, logs: Logs, some: seq<Op>) {
    Prefixes(chains, logs) && forall k, o | k in chains && o in chains[k] && o in LogOf(held, k) + some :: o in LogOf(logs, k)
  }

  lemma {:induction false} FedUpTo(chains: Logs, feed: seq<Op>, s: State, n: nat)
    requires Chained(chains) && Prefixes(chains, s.logs) && Delivers(chains, s.logs, feed) && n <= |feed|
    ensures Arrived(chains, s.logs, TakeAll(s, feed[..n]).logs, feed[..n])
  {
    hide Chained, Arrived, Delivers, KeyOf, Stored, Prefixes;
    if n > 0 {
      FedUpTo(chains, feed, s, n - 1);
      assert feed[..n][..n - 1] == feed[..n - 1] && feed[..n] == feed[..n - 1] + [feed[n - 1]];
      FedOne(chains, s.logs, feed, TakeAll(s, feed[..n - 1]).logs, n - 1);
    } else {
      NothingArrived(chains, s.logs);
    }
  }

  lemma NothingArrived(chains: Logs, held: Logs)
    requires Prefixes(chains, held)
    ensures Arrived(chains, held, held, [])
  {
  }

  /** An op is at its own place in its chain. */
  lemma PlaceOf(chain: seq<Op>, log: seq<Op>, op: Op, j: nat)
    requires Contiguous(chain) && log <= chain && j < |chain| && chain[j] == op
    ensures op in log <==> j < |log|
    ensures log != [] ==> (op.no == log[|log| - 1].no + 1 <==> j == |log|)
  {
    if op in log {
      var i :| 0 <= i < |log| && log[i] == op;
      assert chain[i].no == chain[0].no + i;
    }
  }

  lemma FedAfter(chains: Logs, held: Logs, feed: seq<Op>, n: nat, j: nat)
    requires Delivers(chains, held, feed) && n < |feed|
    ensures Holds(chains, feed[n])
    ensures var k := KeyOf(feed[n]);
      0 < j < |chains[k]| && chains[k][j] == feed[n] ==> chains[k][j - 1] in LogOf(held, k) + feed[..n]
  {
    hide KeyOf;
  }

  lemma FedOne(chains: Logs, held: Logs, feed: seq<Op>, logs: Logs, n: nat)
    requires Chained(chains) && Delivers(chains, held, feed) && n < |feed| && Arrived(chains, held, logs, feed[..n])
    ensures Arrived(chains, held, Stored(logs, feed[n]).0, feed[..n] + [feed[n]])
  {
    hide KeyOf, Delivers, Stored;
    var op, k := feed[n], KeyOf(feed[n]);
    FedAfter(chains, held, feed, n, 0);
    var chain, log := chains[k], LogOf(logs, k);
    assert log <= chain;
    var j :| 0 <= j < |chain| && chain[j] == op;
    PlaceOf(chain, log, op, j);
    FedAfter(chains, held, feed, n, j);
    if j > 0 {
      assert chain[j - 1] in LogOf(held, k) + feed[..n] && chain[j - 1] in chain;
      PlaceOf(chain, log, chain[j - 1], j - 1);
    }
    assert j <= |log|;
    Storing(chains, held, logs, feed[..n], op, k, j);
  }

  lemma Storing(chains: Logs, held: Logs, logs: Logs, some: seq<Op>, op: Op, k: string, j: nat)
    requires Keyed(chains) && Arrived(chains, held, logs, some) && k == KeyOf(op) && k in chains
    requires j < |chains[k]| && chains[k][j] == op && j <= |LogOf(logs, k)|
    requires op in LogOf(logs, k) <==> j < |LogOf(logs, k)|
    requires var log := LogOf(logs, k); log != [] ==> (op.no == log[|log| - 1].no + 1 <==> j == |log|)
    ensures Arrived(chains, held, Stored(logs, op).0, some + [op])
  {
    hide KeyOf;
    var log, logs' := LogOf(logs, k), Stored(logs, op).0;
    if j == |log| {
      assert logs' == logs[k := log + [op]] && log + [op] <= chains[k];
    } else {
      assert logs' == logs;
    }
    forall m, o | m in chains && o in chains[m] && o in LogOf(held, m) + (some + [op]) ensures o in LogOf(logs', m) {
      assert KeyOf(o) == m;
      if o != op {
        assert o in LogOf(held, m) + some;
      }
    }
  }

  lemma ChainArrived(chains: Logs, held: Logs, logs: Logs, feed: seq<Op>, k: string)
    requires Chained(chains) && Arrived(chains, held, logs, feed) && k in chains && chains[k] != []
    requires forall o | o in chains[k] :: o in LogOf(held, k) + feed
    ensures k in logs && logs[k] == chains[k]
  {
    hide KeyOf;
    var last := chains[k][|chains[k]| - 1];
    assert last in chains[k] && last in LogOf(logs, k);
    PlaceOf(chains[k], logs[k], last, |chains[k]| - 1);
  }

  /** Whatever order the rest of the chains is delivered in, a session that holds a prefix of each is
      left with the chains themselves. */
  lemma Converges(chains: Logs, feed: seq<Op>, s: State)
    requires Chained(chains) && (forall k | k in chains :: chains[k] != [])
    requires Prefixes(chains, s.logs) && Delivers(chains, s.logs, feed)
    ensures TakeAll(s, feed).logs == chains
  {
    hide KeyOf, TakeAll, Stored;
    FedUpTo(chains, feed, s, |feed|);
    assert feed[..|feed|] == feed;
    var logs := TakeAll(s, feed).logs;
    forall k | k in chains ensures k in logs && logs[k] == chains[k] {
      ChainArrived(chains, s.logs, logs, feed, k);
    }
    assert logs.Keys == chains.Keys;
  }

  /** What an event feeds the logs: the op it makes, or the batch it takes whole. */
  function FedBy(s: State, hash: Op -> seq<byte>, swmr: seq<byte> -> bool, e: Event): seq<Op> {
    if e.Remote? then if ApplyRemote(s, swmr, e.ops).1 then e.ops else [] else MadeBy(s, hash, swmr, e)
  }

  function FedIn(s: State, hash: Op -> seq<byte>, swmr: seq<byte> -> bool, events: seq<Event>): seq<Op> {
    if events == [] then []
    else
      var init, e := events[..|events| - 1], events[|events| - 1];
      FedIn(s, hash, swmr, init) + FedBy(After(s, hash, swmr, init), hash, swmr, e)
  }

  /** As far as ops go: the same logs, by the same clock. */
  ghost predicate Alike(s: State, t: State) {
    s.logs == t.logs && s.lamport == t.lamport
  }

  lemma {:induction false} TakeAllOn(s: State, t: State, some: seq<Op>, more: seq<Op>)
    requires Alike(TakeAll(s, some), t)
    ensures Alike(TakeAll(s, some + more), TakeAll(t, more))
  {
    hide Stored;
    if more == [] {
      assert some + more == some;
    } else {
      assert (some + more)[..|some + more| - 1] == some + more[..|more| - 1];
      TakeAllOn(s, t, some, more[..|more| - 1]);
    }
  }

  /** Short of a refusal, an event takes what it feeds: an append is its own op taken. */
  lemma StepTakes(s: State, hash: Op -> seq<byte>, swmr: seq<byte> -> bool, e: Event)
    requires !e.Refusal?
    ensures Alike(TakeAll(s, FedBy(s, hash, swmr, e)), Next(s, hash, swmr, e))
  {
    hide Supported;
    if e.Local? {
      var made := MadeBy(s, hash, swmr, e);
      if made != [] {
        assert made[..0] == [] && TakeAll(s, made) == Take(TakeAll(s, []), made[0]);
      }
    }
  }

  lemma {:induction false} RunTakes(s: State, hash: Op -> seq<byte>, swmr: seq<byte> -> bool, events: seq<Event>)
    requires forall e | e in events :: !e.Refusal?
    ensures Alike(TakeAll(s, FedIn(s, hash, swmr, events)), After(s, hash, swmr, events))
  {
    hide TakeAll, Next, FedBy;
    if events == [] {
      TakesNone(s);
    } else {
      var init, e := events[..|events| - 1], events[|events| - 1];
      assert events == init + [e];
      RunTakes(s, hash, swmr, init);
      var t := After(s, hash, swmr, init);
      TakeAllOn(s, t, FedIn(s, hash, swmr, init), FedBy(t, hash, swmr, e));
      StepTakes(t, hash, swmr, e);
    }
  }

  lemma TakesNone(s: State)
    ensures TakeAll(s, []) == s
  {
  }

  /** From any session that holds a prefix of each chain, whatever it appends and whatever batches it is
      given, split and repeated in any way: once the ops made and taken deliver the rest, it holds the
      chains. */
  lemma ConvergesInRuns(s: State, hash: Op -> seq<byte>, swmr: seq<byte> -> bool, events: seq<Event>, chains: Logs)
    requires (forall e | e in events :: !e.Refusal?) && Prefixes(chains, s.logs) && Delivers(chains, s.logs, FedIn(s, hash, swmr, events))
    requires Chained(chains) && forall k | k in chains :: chains[k] != []
    ensures After(s, hash, swmr, events).logs == chains
  {
    hide Chained, Delivers, Prefixes, FedIn, TakeAll, After;
    RunTakes(s, hash, swmr, events);
    Converges(chains, FedIn(s, hash, swmr, events), s);
  }

  /** So any two sessions, each appending its own and given the other's, fold each zone's value and its
      log alike. */
  lemma ReplicasFoldAlike(s1: State, s2: State, hash: Op -> seq<byte>, swmr: seq<byte> -> bool, events1: seq<Event>,
                          events2: seq<Event>, chains: Logs, z: Zone, ops1: seq<Op>, ops2: seq<Op>,
                          v1: Option<seq<byte>>, v2: Option<seq<byte>>, l1: seq<seq<byte>>, l2: seq<seq<byte>>)
    requires (forall e | e in events1 + events2 :: !e.Refusal?) && Prefixes(chains, s1.logs) && Prefixes(chains, s2.logs)
    requires Delivers(chains, s1.logs, FedIn(s1, hash, swmr, events1)) && Delivers(chains, s2.logs, FedIn(s2, hash, swmr, events2))
    requires Chained(chains) && (forall k | k in chains :: chains[k] != [])
    requires Plain(z) && PlainLogs(chains) && LamportsDiffer(chains, z)
    requires Listing(After(s1, hash, swmr, events1).logs, PrefixOf(z), ops1) && FoldsValue(ops1, v1) && FoldsLog(ops1, l1)
    requires Listing(After(s2, hash, swmr, events2).logs, PrefixOf(z), ops2) && FoldsValue(ops2, v2) && FoldsLog(ops2, l2)
    ensures v1 == v2 && l1 == l2
  {
    hide Chained, Delivers, Prefixes, FedIn, After, Listing, FoldsValue, FoldsLog, LamportsDiffer, PlainLogs, PrefixOf, Plain;
    assert (forall e | e in events1 :: e in events1 + events2) && forall e | e in events2 :: e in events1 + events2;
    ConvergesInRuns(s1, hash, swmr, events1, chains);
    ConvergesInRuns(s2, hash, swmr, events2, chains);
    ValueFoldsAgree(chains, z, ops1, v1, ops2, v2);
    LogFoldsAgree(chains, z, ops1, l1, ops2, l2);
  }

  // What a caller sees.

  /** A local value is what its zone folds to next. */
  lemma LocalValueWins(s: State, hash: Op -> seq<byte>, swmr: seq<byte> -> bool, z: Zone, payload: seq<byte>,
                       frontier: seq<Head>, ops: seq<Op>, r: Option<seq<byte>>)
    requires Sound(s) && PlainLogs(s.logs) && Plain(z)
    requires var (s', made) := Append(s, hash, swmr, z, Value, payload, frontier);
      made.Success? && Listing(s'.logs, PrefixOf(z), ops) && FoldsValue(ops, r)
    ensures r == Some(payload)
  {
    hide FirstSeen, OfShape, Listing, FoldsValue;
    var (s', made) := Append(s, hash, swmr, z, Value, payload, frontier);
    var op := made.value;
    NextKeeps(s, hash, swmr, Local(z, Value, payload, frontier));
    LocalIsNewest(s, hash, swmr, z, payload, frontier);
    FoldedOver(s'.logs, z, ops, Value);
    NewestWins(s'.logs, z, FirstSeen(OfShape(ops, Value)), op);
    Winner(ops, r, op);
  }

  /** A local value is in its zone, past every other op's lamport. */
  lemma LocalIsNewest(s: State, hash: Op -> seq<byte>, swmr: seq<byte> -> bool, z: Zone, payload: seq<byte>, frontier: seq<Head>)
    requires Sound(s) && PlainLogs(s.logs) && Plain(z)
    requires Append(s, hash, swmr, z, Value, payload, frontier).1.Success?
    ensures var (s', made) := Append(s, hash, swmr, z, Value, payload, frontier);
      && PlainLogs(s'.logs) && InZone(s'.logs, z, made.value) && made.value.shape == Value && made.value.payload == payload
      && forall k, o | k in s'.logs && o in s'.logs[k] :: o == made.value || o.lamport < made.value.lamport
  {
    var (s', made) := Append(s, hash, swmr, z, Value, payload, frontier);
    var op := made.value;
    assert Stored(s.logs, op).1;
    forall k, o | k in s'.logs && o in s'.logs[k] ensures Plain(ZoneOf(o)) && (o == op || o.lamport < op.lamport) {
      assert k == KeyOf(op) || s'.logs[k] == s.logs[k];
    }
  }

  lemma NewestWins(logs: Logs, z: Zone, live: set<Op>, op: Op)
    requires forall o :: o in live <==> InZone(logs, z, o) && o.shape == Value
    requires InZone(logs, z, op) && op.shape == Value
    requires forall k, o | k in logs && o in logs[k] :: o == op || o.lamport < op.lamport
    ensures op in live && forall o | o in live && o != op :: Better(op, o)
  {
  }

  lemma Winner(ops: seq<Op>, r: Option<seq<byte>>, op: Op)
    requires FoldsValue(ops, r)
    requires var live := FirstSeen(OfShape(ops, Value)); op in live && forall o | o in live && o != op :: Better(op, o)
    ensures r == Some(op.payload)
  {
    hide FirstSeen, OfShape, Better;
    var live := FirstSeen(OfShape(ops, Value));
    var w :| w in live && r == Some(w.payload) && forall o | o in live :: !Better(o, w);
  }

  predicate Resumes(e: Event, origin: string, k: string) {
    e.Resumption? && ChainKey(e.z.share, e.z.gladeId, e.z.key, origin) == k
  }

  ghost predicate Brought(events: seq<Event>, o: Op) {
    exists e | e in events :: e.Remote? && o in e.ops
  }

  lemma StoppedStep(s: State, hash: Op -> seq<byte>, swmr: seq<byte> -> bool, e: Event, k: string)
    requires k in s.unresumed && !Resumes(e, s.origin, k)
    ensures var s' := Next(s, hash, swmr, e);
      && s'.origin == s.origin && k in s'.unresumed
      && forall o | o in LogOf(s'.logs, k) :: o in LogOf(s.logs, k) || (e.Remote? && o in e.ops)
  {
    match e
    case Local(_, _, _, _) =>
    case Remote(ops) => TakeAllBrings(s, ops, k);
    case Refusal(_) =>
    case Resumption(_) =>
  }

  /** A stopped chain stays so until it is resumed, and only batches add to it. */
  lemma {:induction false} StaysStopped(s: State, hash: Op -> seq<byte>, swmr: seq<byte> -> bool, events: seq<Event>, k: string)
    requires k in s.unresumed && forall e | e in events :: !Resumes(e, s.origin, k)
    ensures var t := After(s, hash, swmr, events);
      && t.origin == s.origin && k in t.unresumed
      && forall o | o in LogOf(t.logs, k) :: o in LogOf(s.logs, k) || Brought(events, o)
  {
    hide Next, Resumes;
    if events != [] {
      var init, e := events[..|events| - 1], events[|events| - 1];
      assert events == init + [e];
      StaysStopped(s, hash, swmr, init, k);
      var t := After(s, hash, swmr, init);
      StoppedStep(t, hash, swmr, e, k);
      forall o | o in LogOf(t.logs, k) ensures o in LogOf(s.logs, k) || Brought(events, o) {
        if Brought(init, o) {
          var b :| b in init && b.Remote? && o in b.ops;
          assert b in events;
        }
      }
    }
  }

  /** A refusal of an op the session holds leaves its chain the ops before it, and every other chain
      whole. */
  lemma RefusalKeepsTheRest(s: State, op: Op)
    requires Sound(s) && op.origin == s.origin && Holds(s.logs, op)
    ensures var s', k := Refuse(s, op), KeyOf(op);
      && k in s'.unresumed && s'.origin == s.origin && s'.logs.Keys == s.logs.Keys
      && s'.logs[k] <= s.logs[k] && op !in s'.logs[k] && |s'.logs[k]| == op.no - s.logs[k][0].no
      && forall j | j in s.logs && j != k :: s'.logs[j] == s.logs[j]
  {
    var k := KeyOf(op);
    var log := s.logs[k];
    var at := IndexOf(log, op);
    assert Contiguous(log);
  }

  /** And until that chain is resumed, whatever else happens, every append of its zone fails and
      changes nothing, and only batches bring it ops; the append after its resume takes its next
      seq. */
  lemma RefusalStopsTheChain(s: State, hash: Op -> seq<byte>, swmr: seq<byte> -> bool, op: Op, events: seq<Event>, shape: Shape,
                             payload: seq<byte>, frontier: seq<Head>)
    requires Sound(s) && op.origin == s.origin && Holds(s.logs, op) && Supported(shape, payload, swmr)
    requires forall e | e in events :: !Resumes(e, s.origin, KeyOf(op))
    ensures var t, k, z := After(Refuse(s, op), hash, swmr, events), KeyOf(op), ZoneOf(op);
      && k in t.unresumed && Append(t, hash, swmr, z, shape, payload, frontier) == (t, Failure(Stopped(t.unresumed[k])))
      && (forall o | o in LogOf(t.logs, k) :: o in LogOf(Refuse(s, op).logs, k) || Brought(events, o))
      && (var (t', made), log := Append(Resume(t, z), hash, swmr, z, shape, payload, frontier), LogOf(t.logs, k);
          && made.Success? && LogOf(t'.logs, k) == log + [made.value]
          && made.value.no == if log == [] then 0 else log[|log| - 1].no + 1)
  {
    hide After, Sound, Resumes, Brought, Supported;
    RefusalKeepsTheRest(s, op);
    StaysStopped(Refuse(s, op), hash, swmr, events, KeyOf(op));
  }
}
