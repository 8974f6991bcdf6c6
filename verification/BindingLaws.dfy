/** What registering an app's file makes of the directory: when its bindings are just the file's,
    and when a second registration has nothing to append. */
module BindingLaws {
  import opened Wrappers
  import opened Text
  import opened Bindings

  // The fold.

  lemma AboveTransitive(a: BindingOp, b: BindingOp, c: BindingOp)
    requires Above(a, b) && Above(b, c)
    ensures Above(a, c)
  {
    BeforeTotal(a.origin, b.origin);
    BeforeTotal(b.origin, c.origin);
    if a.lamport == b.lamport == c.lamport && Before(c.origin, b.origin) && Before(b.origin, a.origin) {
      BeforeTransitive(c.origin, b.origin, a.origin);
      BeforeTotal(a.origin, c.origin);
    }
  }

  lemma {:induction false} NewestIs(ops: seq<BindingOp>, p: Pair, origin: string)
    ensures match Newest(ops, p, origin)
      case None => forall op | op in ops :: !(Of(op.rec) == p && op.origin == origin)
      case Some(n) => n in ops && Of(n.rec) == p && n.origin == origin
  {
    hide Above;
    if ops != [] {
      NewestIs(ops[..|ops| - 1], p, origin);
      assert ops == ops[..|ops| - 1] + [ops[|ops| - 1]];
    }
  }

  /** A declaration live for a pair. */
  predicate LiveFor(ops: seq<BindingOp>, p: Pair, op: BindingOp) {
    op in ops && Of(op.rec) == p && Live(ops, op)
  }

  lemma {:induction false} HighestIs(some: seq<BindingOp>, ops: seq<BindingOp>, p: Pair)
    ensures match Highest(some, ops, p)
      case None => forall op | op in some :: !(Of(op.rec) == p && Live(ops, op))
      case Some(h) =>
        && h in some && Of(h.rec) == p && Live(ops, h)
        && forall op | op in some && Of(op.rec) == p && Live(ops, op) :: !Above(op, h)
  {
    hide Above, Live;
    if some != [] {
      var init, op := some[..|some| - 1], some[|some| - 1];
      assert some == init + [op];
      HighestIs(init, ops, p);
      var best := Highest(init, ops, p);
      NotAboveItself(op);
      forall x | x in init && best.Some? && Above(op, best.value) && Above(x, op) ensures Above(x, best.value) {
        AboveTransitive(x, op, best.value);
      }
    }
  }

  lemma NotAboveItself(op: BindingOp)
    ensures !Above(op, op)
  {
  }

  lemma OneHighest(ops: seq<BindingOp>, p: Pair, a: BindingOp, b: BindingOp)
    requires LiveFor(ops, p, a) && LiveFor(ops, p, b) && !Above(a, b) && !Above(b, a)
    ensures a == b
  {
    BeforeTotal(a.origin, b.origin);
  }

  /** The one declaration none live is above is what stands. */
  lemma StandsHighest(ops: seq<BindingOp>, p: Pair, op: BindingOp)
    requires LiveFor(ops, p, op) && forall x | LiveFor(ops, p, x) :: !Above(x, op)
    ensures Standing(ops, p) == Some(op.rec.b)
  {
    hide Above, Newest;
    HighestIs(ops, ops, p);
    var h := Highest(ops, ops, p).value;
    assert LiveFor(ops, p, h);
    OneHighest(ops, p, h, op);
  }

  lemma StandsIfLive(ops: seq<BindingOp>, p: Pair)
    ensures Standing(ops, p).Some? <==> exists op :: LiveFor(ops, p, op)
  {
    hide Above, Newest;
    HighestIs(ops, ops, p);
    if Highest(ops, ops, p).Some? {
      assert LiveFor(ops, p, Highest(ops, ops, p).value);
    }
  }

  ghost predicate SameLive(ops: seq<BindingOp>, ops': seq<BindingOp>, p: Pair) {
    forall x :: LiveFor(ops, p, x) <==> LiveFor(ops', p, x)
  }

  lemma StandsAlike(ops: seq<BindingOp>, ops': seq<BindingOp>, p: Pair)
    requires SameLive(ops, ops', p)
    ensures Standing(ops, p) == Standing(ops', p)
  {
    hide Above, Live, Standing;
    StandsIfLive(ops, p);
    StandsIfLive(ops', p);
    if Standing(ops, p).Some? {
      var h := HighestLive(ops, p);
      StandsHighest(ops, p, h);
      StandsHighest(ops', p, h);
    }
  }

  lemma HighestLive(ops: seq<BindingOp>, p: Pair) returns (h: BindingOp)
    requires Standing(ops, p).Some?
    ensures LiveFor(ops, p, h) && forall x | LiveFor(ops, p, x) :: !Above(x, h)
  {
    hide Above, Live;
    HighestIs(ops, ops, p);
    h := Highest(ops, ops, p).value;
  }

  // An append.

  lemma {:induction false} LamportIsNew(ops: seq<BindingOp>)
    ensures match NextLamport(ops)
      case None => ops == []
      case Some(n) => forall op | op in ops :: op.lamport < n
  {
    if ops != [] {
      LamportIsNew(ops[..|ops| - 1]);
      assert ops == ops[..|ops| - 1] + [ops[|ops| - 1]];
    }
  }

  /** An append is its pair's newest record of its origin, above every other, and touches no other
      pair. */
  lemma PushLives(ops: seq<BindingOp>, origin: string, rec: Rec, p: Pair)
    ensures var ops', op := Push(ops, origin, rec), Made(ops, origin, rec);
      && (p != Of(rec) ==> SameLive(ops, ops', p))
      && (p == Of(rec) ==> forall x :: LiveFor(ops', p, x) <==> (x == op && rec.Declares?) || (LiveFor(ops, p, x) && x.origin != origin))
      && (forall x | x in ops :: Above(op, x) && !Above(x, op))
  {
    var ops', op := Push(ops, origin, rec), Made(ops, origin, rec);
    LamportIsNew(ops);
    assert ops'[..|ops|] == ops;
    forall x: BindingOp
      ensures Newest(ops', Of(x.rec), x.origin) ==
        if Of(x.rec) == Of(rec) && x.origin == origin then Some(op) else Newest(ops, Of(x.rec), x.origin)
    {
      NewestIs(ops, Of(x.rec), x.origin);
    }
  }

  lemma PushStands(ops: seq<BindingOp>, origin: string, b: Binding)
    ensures Standing(Push(ops, origin, Declares(b)), Pair(b.app, b.gladeId)) == Some(b)
  {
    hide Standing, Above, Live, Push, Made;
    var p, ops', op := Pair(b.app, b.gladeId), Push(ops, origin, Declares(b)), Made(ops, origin, Declares(b));
    PushLives(ops, origin, Declares(b), p);
    assert op.rec == Declares(b) by { MadeIs(ops, origin, Declares(b)); }
    assert LiveFor(ops', p, op);
    forall x | LiveFor(ops', p, x) ensures !Above(x, op) {
      if x == op { NotAboveItself(op); }
    }
    StandsHighest(ops', p, op);
  }

  lemma MadeIs(ops: seq<BindingOp>, origin: string, rec: Rec)
    ensures Made(ops, origin, rec).rec == rec && Made(ops, origin, rec).origin == origin
    ensures Push(ops, origin, rec) == ops + [Made(ops, origin, rec)]
  {
  }

  // A file.

  function PairOf(b: Binding): Pair { Pair(b.app, b.gladeId) }

  /** Declaring the first `n` lines: each stands, and no other pair is touched. */
  lemma {:induction false} DeclareLeaves(d: AppDecl, start: seq<BindingOp>, origin: string, n: nat, p: Pair)
    requires Parsed(d) && n <= |d.bindings|
    ensures var ops := Declare(d, start, origin, n);
      && |ops| >= |start|
      && (forall i | 0 <= i < n :: Standing(ops, PairOf(d.bindings[i])) == Some(d.bindings[i]))
      && ((forall i | 0 <= i < n :: p != PairOf(d.bindings[i])) ==> SameLive(start, ops, p))
  {
    hide Standing, Push, LiveFor;
    if n > 0 {
      var before, b := Declare(d, start, origin, n - 1), d.bindings[n - 1];
      DeclareLeaves(d, start, origin, n - 1, p);
      var ops := Declare(d, start, origin, n);
      DeclareLeaves(d, start, origin, n - 1, PairOf(b));
      assert Pair(d.app, b.gladeId) == PairOf(b);
      if Standing(start, PairOf(b)) == Some(b) {
        StandsAlike(start, before, PairOf(b));
      } else {
        MadeIs(before, origin, Declares(b));
        PushStands(before, origin, b);
        PushLives(before, origin, Declares(b), p);
        forall i | 0 <= i < n - 1 ensures Standing(ops, PairOf(d.bindings[i])) == Some(d.bindings[i]) {
          PushLives(before, origin, Declares(b), PairOf(d.bindings[i]));
          StandsAlike(before, ops, PairOf(d.bindings[i]));
        }
      }
    }
  }

  /** The live declarations of a pair but one origin's. */
  ghost predicate LessOne(ops: seq<BindingOp>, ops': seq<BindingOp>, p: Pair, origin: string) {
    forall x :: LiveFor(ops', p, x) <==> LiveFor(ops, p, x) && x.origin != origin
  }

  /** Retracting ids: of each the file does not list, the retracting origin's declaration goes, and
      no other. */
  lemma {:induction false} RetractLeaves(d: AppDecl, ids: seq<string>, ops: seq<BindingOp>, origin: string, p: Pair)
    ensures var ops' := Retract(d, ids, ops, origin);
      && |ops'| >= |ops|
      && (if p.app == d.app && p.gladeId in ids && !Lists(d, p.gladeId) then LessOne(ops, ops', p, origin) else SameLive(ops, ops', p))
  {
    hide Push, Lists, LiveFor;
    if ids != [] {
      var init, id := ids[..|ids| - 1], ids[|ids| - 1];
      assert ids == init + [id];
      RetractLeaves(d, init, ops, origin, p);
      var before := Retract(d, init, ops, origin);
      if !Lists(d, id) {
        MadeIs(before, origin, Retracts(d.app, id));
        PushLives(before, origin, Retracts(d.app, id), p);
      }
    }
  }

  lemma {:induction false} InsertAre(ids: seq<string>, id: string)
    ensures forall x :: x in Insert(ids, id) <==> x in ids || x == id
  {
    if ids != [] {
      InsertAre(ids[1..], id);
      assert ids == [ids[0]] + ids[1..];
    }
  }

  lemma {:induction false} LiveIdsOf(some: seq<BindingOp>, ops: seq<BindingOp>, app: string)
    ensures forall id :: id in LiveIds(some, ops, app) <==>
                         (exists op | op in some :: Of(op.rec) == Pair(app, id)) && Standing(ops, Pair(app, id)).Some?
  {
    hide Standing;
    if some != [] {
      var init, op := some[..|some| - 1], some[|some| - 1];
      assert some == init + [op];
      LiveIdsOf(init, ops, app);
      InsertAre(LiveIds(init, ops, app), Of(op.rec).gladeId);
      forall id
        ensures id in LiveIds(some, ops, app) <==>
                (exists o | o in some :: Of(o.rec) == Pair(app, id)) && Standing(ops, Pair(app, id)).Some?
      {
        if o :| o in init && Of(o.rec) == Pair(app, id) { assert o in some; }
        if Of(op.rec) == Pair(app, id) { assert op in some; }
      }
    }
  }

  /** The ids an app has live are those with a declaration standing. */
  lemma LiveIdsStand(ops: seq<BindingOp>, app: string, id: string)
    ensures id in LiveIds(ops, ops, app) <==> Standing(ops, Pair(app, id)).Some?
  {
    hide Standing, Live;
    LiveIdsOf(ops, ops, app);
    StandsIfLive(ops, Pair(app, id));
    if Standing(ops, Pair(app, id)).Some? {
      var op :| LiveFor(ops, Pair(app, id), op);
      assert op in ops && Of(op.rec) == Pair(app, id);
    }
  }

  /** What the file binds an id to. */
  function FileBinding(bindings: seq<Binding>, id: string): Option<Binding> {
    if bindings == [] then None
    else if bindings[0].gladeId == id then Some(bindings[0])
    else FileBinding(bindings[1..], id)
  }

  lemma {:induction false} FileBindingIs(bindings: seq<Binding>, id: string)
    ensures match FileBinding(bindings, id)
      case None => forall i | 0 <= i < |bindings| :: bindings[i].gladeId != id
      case Some(b) => exists i | 0 <= i < |bindings| :: bindings[i] == b && b.gladeId == id
  {
    if bindings != [] && bindings[0].gladeId != id {
      FileBindingIs(bindings[1..], id);
      if FileBinding(bindings[1..], id).Some? {
        var i :| 0 <= i < |bindings[1..]| && bindings[1..][i] == FileBinding(bindings[1..], id).value;
        assert bindings[i + 1].gladeId == id;
      }
    }
  }

  /** Another origin has a declaration of the file's app live that the file does not list. */
  ghost predicate OthersStand(ops: seq<BindingOp>, d: AppDecl, origin: string) {
    exists id, op :: !Lists(d, id) && LiveFor(ops, Pair(d.app, id), op) && op.origin != origin
  }

  /** What a registration leaves of one id of the app. */
  lemma RegisterLeavesId(r: Registry, d: AppDecl, origin: string, id: string)
    requires Parsed(d)
    ensures var f', p := Register(r, d, origin).family, Pair(d.app, id);
      if Lists(d, id) then Standing(f', p) == FileBinding(d.bindings, id)
      else Standing(f', p).Some? <==> exists op :: LiveFor(r.family, p, op) && op.origin != origin
  {
    hide Standing, LiveFor, Retract, Declare, LiveIds;
    var p, n := Pair(d.app, id), |d.bindings|;
    var ids, f1 := LiveIds(r.family, r.family, d.app), Declare(d, r.family, origin, n);
    var f' := Retract(d, ids, f1, origin);
    DeclareLeaves(d, r.family, origin, n, p);
    RetractLeaves(d, ids, f1, origin, p);
    FileBindingIs(d.bindings, id);
    if Lists(d, id) {
      StandsAlike(f1, f', p);
    } else {
      LiveIdsStand(r.family, d.app, id);
      StandsIfLive(r.family, p);
      StandsIfLive(f', p);
    }
  }

  /** A registration leaves every other app's declarations as they were. */
  lemma OtherAppsKept(r: Registry, d: AppDecl, origin: string, p: Pair)
    requires Parsed(d) && p.app != d.app
    ensures SameLive(r.family, Register(r, d, origin).family, p)
    ensures Standing(r.family, p) == Standing(Register(r, d, origin).family, p)
  {
    hide Standing, LiveFor, Retract, Declare, LiveIds;
    var f1 := Declare(d, r.family, origin, |d.bindings|);
    DeclareLeaves(d, r.family, origin, |d.bindings|, p);
    RetractLeaves(d, LiveIds(r.family, r.family, d.app), f1, origin, p);
    StandsAlike(r.family, Register(r, d, origin).family, p);
  }

  /** After a registration the app's bindings are just the file's, unless another origin has one
      live that the file does not list. */
  lemma RegisterMakesTheFile(r: Registry, d: AppDecl, origin: string)
    requires Parsed(d)
    ensures (forall id :: Standing(Register(r, d, origin).family, Pair(d.app, id)) == FileBinding(d.bindings, id))
       <==> !OthersStand(r.family, d, origin)
  {
    hide Standing, LiveFor, Register;
    var f' := Register(r, d, origin).family;
    forall id
      ensures if Lists(d, id) then Standing(f', Pair(d.app, id)) == FileBinding(d.bindings, id)
              else FileBinding(d.bindings, id) == None
                   && (Standing(f', Pair(d.app, id)).Some? <==> exists op :: LiveFor(r.family, Pair(d.app, id), op) && op.origin != origin)
    {
      RegisterLeavesId(r, d, origin, id);
      FileBindingIs(d.bindings, id);
    }
  }

  // A second registration.

  lemma {:induction false} DeclareIdle(d: AppDecl, start: seq<BindingOp>, origin: string, n: nat)
    requires n <= |d.bindings| && forall i | 0 <= i < n :: Standing(start, Pair(d.app, d.bindings[i].gladeId)) == Some(d.bindings[i])
    ensures Declare(d, start, origin, n) == start
  {
    hide Standing;
    if n > 0 { DeclareIdle(d, start, origin, n - 1); }
  }

  lemma {:induction false} RetractIdle(d: AppDecl, ids: seq<string>, ops: seq<BindingOp>, origin: string)
    ensures var ops' := Retract(d, ids, ops, origin);
      |ops'| >= |ops| && (|ops'| == |ops| <==> forall i | 0 <= i < |ids| :: Lists(d, ids[i])) && (|ops'| == |ops| ==> ops' == ops)
  {
    hide Lists, Made;
    if ids != [] { RetractIdle(d, ids[..|ids| - 1], ops, origin); }
  }

  lemma {:induction false} NewInAre(some: seq<Other>, start: seq<Other>)
    ensures forall o :: o in NewIn(some, start) <==> o in some && o !in start
  {
    if some != [] {
      NewInAre(some[..|some| - 1], start);
      assert some == some[..|some| - 1] + [some[|some| - 1]];
    }
  }

  lemma {:induction false} NoneNew(some: seq<Other>, start: seq<Other>)
    requires forall o | o in some :: o in start
    ensures NewIn(some, start) == []
  {
    if some != [] {
      NoneNew(some[..|some| - 1], start);
    }
  }

  /** The file is what the directory holds of its app: its bindings stand, and no others of the app,
      and its other records are there. */
  ghost predicate Registered(r: Registry, d: AppDecl) {
    && (forall id :: Standing(r.family, Pair(d.app, id)) == FileBinding(d.bindings, id))
    && (forall o | o in d.others :: o in r.others)
  }

  lemma ListedStand(r: Registry, d: AppDecl)
    requires Parsed(d) && forall id | Lists(d, id) :: Standing(r.family, Pair(d.app, id)) == FileBinding(d.bindings, id)
    ensures forall i | 0 <= i < |d.bindings| :: Standing(r.family, Pair(d.app, d.bindings[i].gladeId)) == Some(d.bindings[i])
  {
    hide Standing;
    forall i | 0 <= i < |d.bindings| ensures Standing(r.family, Pair(d.app, d.bindings[i].gladeId)) == Some(d.bindings[i]) {
      FileBindingIs(d.bindings, d.bindings[i].gladeId);
      assert Lists(d, d.bindings[i].gladeId);
    }
  }

  /** Registering what is registered changes nothing. */
  lemma RegisterIdle(r: Registry, d: AppDecl, origin: string)
    requires Parsed(d) && Registered(r, d)
    ensures Register(r, d, origin) == r
  {
    hide Standing, Declare, Retract, LiveIds;
    ListedStand(r, d);
    DeclareIdle(d, r.family, origin, |d.bindings|);
    var ids := LiveIds(r.family, r.family, d.app);
    RetractIdle(d, ids, r.family, origin);
    forall i | 0 <= i < |ids| ensures Lists(d, ids[i]) {
      LiveIdsStand(r.family, d.app, ids[i]);
      FileBindingIs(d.bindings, ids[i]);
    }
    NoneNew(d.others, r.others);
    assert r.others + [] == r.others;
  }

  lemma OthersThere(r: Registry, d: AppDecl, origin: string)
    ensures forall o | o in d.others || o in r.others :: o in Register(r, d, origin).others
  {
    NewInAre(d.others, r.others);
  }

  /** A second registration of the file appends nothing, on the same condition. */
  lemma SecondAppendsNothing(r: Registry, d: AppDecl, origin: string)
    requires Parsed(d)
    ensures var r1 := Register(r, d, origin);
      Appended(r1, Register(r1, d, origin)) == 0 <==> !OthersStand(r.family, d, origin)
  {
    hide Standing, LiveFor, Register;
    var r1 := Register(r, d, origin);
    RegisterMakesTheFile(r, d, origin);
    OthersThere(r, d, origin);
    if OthersStand(r.family, d, origin) {
      var id, op :| !Lists(d, id) && LiveFor(r.family, Pair(d.app, id), op) && op.origin != origin;
      RegisterLeavesId(r, d, origin, id);
      StrayRetracted(r1, d, origin, id);
    } else {
      assert Registered(r1, d);
      RegisterIdle(r1, d, origin);
    }
  }

  /** A binding standing that the file does not list is retracted again. */
  lemma StrayRetracted(r: Registry, d: AppDecl, origin: string, id: string)
    requires Parsed(d) && !Lists(d, id) && Standing(r.family, Pair(d.app, id)).Some?
    ensures Appended(r, Register(r, d, origin)) > 0
  {
    hide Standing, LiveFor, Declare, Retract, LiveIds;
    var ids, f1 := LiveIds(r.family, r.family, d.app), Declare(d, r.family, origin, |d.bindings|);
    LiveIdsStand(r.family, d.app, id);
    var i :| 0 <= i < |ids| && ids[i] == id;
    DeclareLeaves(d, r.family, origin, |d.bindings|, Pair(d.app, id));
    RetractIdle(d, ids, f1, origin);
  }

  /** A directory where another node declared the app's binding: the file that lists none does not
      take it down, and retracts it at every start. */
  lemma OthersDeclarationStays()
    ensures var b, d := Binding("app", "g", []), AppDecl("app", [], []);
      var r := Bindings.Registry([BindingOp("theirs", 0, 0, Declares(b))], []);
      var r1 := Register(r, d, "ours");
      Standing(r1.family, Pair("app", "g")).Some? && Appended(r1, Register(r1, d, "ours")) != 0
  {
    hide Standing, Register;
    var b, d := Binding("app", "g", []), AppDecl("app", [], []);
    var op := BindingOp("theirs", 0, 0, Declares(b));
    var r := Bindings.Registry([op], []);
    assert Newest([op], Pair("app", "g"), "theirs") == Some(op);
    assert LiveFor(r.family, Pair("app", "g"), op) && op.origin != "ours";
    assert OthersStand(r.family, d, "ours");
    RegisterLeavesId(r, d, "ours", "g");
    SecondAppendsNothing(r, d, "ours");
  }

  // One node's own registry.

  ghost predicate OneOrigin(ops: seq<BindingOp>, origin: string) {
    forall op | op in ops :: op.origin == origin
  }

  lemma {:induction false} DeclareKeepsOrigin(d: AppDecl, start: seq<BindingOp>, origin: string, n: nat)
    requires OneOrigin(start, origin) && n <= |d.bindings|
    ensures OneOrigin(Declare(d, start, origin, n), origin)
  {
    hide Standing, NextNo, NextLamport;
    if n > 0 { DeclareKeepsOrigin(d, start, origin, n - 1); }
  }

  lemma {:induction false} RetractKeepsOrigin(d: AppDecl, ids: seq<string>, ops: seq<BindingOp>, origin: string)
    requires OneOrigin(ops, origin)
    ensures OneOrigin(Retract(d, ids, ops, origin), origin)
  {
    hide Lists, NextNo, NextLamport;
    if ids != [] { RetractKeepsOrigin(d, ids[..|ids| - 1], ops, origin); }
  }

  lemma RegisterOwn(r: Registry, d: AppDecl, origin: string)
    requires Parsed(d) && OneOrigin(r.family, origin)
    ensures OneOrigin(Register(r, d, origin).family, origin) && Registered(Register(r, d, origin), d)
  {
    hide Standing, Declare, Retract, LiveIds, Live;
    DeclareKeepsOrigin(d, r.family, origin, |d.bindings|);
    RetractKeepsOrigin(d, LiveIds(r.family, r.family, d.app), Declare(d, r.family, origin, |d.bindings|), origin);
    RegisterMakesTheFile(r, d, origin);
    assert !OthersStand(r.family, d, origin);
    OthersThere(r, d, origin);
  }

  ghost predicate OneFileEach(files: seq<AppDecl>) {
    && (forall i | 0 <= i < |files| :: Parsed(files[i]))
    && (forall i, j | 0 <= i < j < |files| :: files[i].app != files[j].app)
  }

  /** A start of a node's own registry, each app declared by one file: every app declared has just
      its file's bindings, and a second start appends nothing. */
  lemma {:induction false} StartRegisters(r: Registry, files: seq<AppDecl>, origin: string)
    requires OneFileEach(files) && OneOrigin(r.family, origin)
    ensures var r' := RegisterAll(r, files, origin);
      OneOrigin(r'.family, origin) && forall i | 0 <= i < |files| :: Registered(r', files[i])
  {
    hide Register, Registered, OneOrigin, Parsed;
    if files != [] {
      var init, last := files[..|files| - 1], files[|files| - 1];
      StartRegisters(r, init, origin);
      var before := RegisterAll(r, init, origin);
      RegisterOwn(before, last, origin);
      forall i | 0 <= i < |files| - 1 ensures Registered(Register(before, last, origin), files[i]) {
        assert Registered(before, init[i]);
        StaysRegistered(before, last, origin, files[i]);
      }
    }
  }

  lemma StaysRegistered(r: Registry, d: AppDecl, origin: string, other: AppDecl)
    requires Parsed(d) && Registered(r, other) && other.app != d.app
    ensures Registered(Register(r, d, origin), other)
  {
    hide Standing, Register;
    forall id ensures Standing(Register(r, d, origin).family, Pair(other.app, id)) == FileBinding(other.bindings, id) {
      OtherAppsKept(r, d, origin, Pair(other.app, id));
    }
    OthersThere(r, d, origin);
  }

  lemma {:induction false} RestartIdle(r: Registry, files: seq<AppDecl>, origin: string)
    requires (forall i | 0 <= i < |files| :: Parsed(files[i]) && Registered(r, files[i]))
    ensures RegisterAll(r, files, origin) == r
  {
    hide Register, Registered, Parsed;
    if files != [] {
      RestartIdle(r, files[..|files| - 1], origin);
      RegisterIdle(r, files[|files| - 1], origin);
    }
  }

  lemma RestartAppendsNothing(r: Registry, files: seq<AppDecl>, origin: string)
    requires OneFileEach(files) && OneOrigin(r.family, origin)
    ensures var r' := RegisterAll(r, files, origin); RegisterAll(r', files, origin) == r'
  {
    hide RegisterAll, Registered, Parsed;
    StartRegisters(r, files, origin);
    RestartIdle(RegisterAll(r, files, origin), files, origin);
  }

  // Grants.

  /** What a registration leaves granted to a pair: nothing once anything revokes it, the file
      included, whatever is granted before or after; else what was granted and what the file
      seeds. */
  lemma GrantsAfter(r: Registry, d: AppDecl, origin: string, principal: string, share: string)
    ensures GrantsFor(Register(r, d, origin).others, principal, share) ==
      if Revoked(r.others, principal, share) || Revoked(d.others, principal, share) then {}
      else GrantedIn(r.others, principal, share) + GrantedIn(d.others, principal, share)
  {
    hide Retract, Declare, LiveIds, GrantedIn, Revoked;
    var after := r.others + NewIn(d.others, r.others);
    NewInAre(d.others, r.others);
    assert forall o :: o in after <==> o in r.others || o in d.others;
    RevokedIn(after, principal, share);
    RevokedIn(r.others, principal, share);
    RevokedIn(d.others, principal, share);
    forall v
      ensures v in GrantedIn(after, principal, share) <==>
              v in GrantedIn(r.others, principal, share) + GrantedIn(d.others, principal, share)
    {
      GrantsIn(after, principal, share, v);
      GrantsIn(r.others, principal, share, v);
      GrantsIn(d.others, principal, share, v);
    }
  }

  lemma RevokedIn(others: seq<Other>, principal: string, share: string)
    ensures Revoked(others, principal, share) <==> exists o | o in others :: o == Revoke(principal, share) || o.UnreadableRevocation?
  {
    if Revoked(others, principal, share) {
      var i :| 0 <= i < |others| && (others[i] == Revoke(principal, share) || others[i].UnreadableRevocation?);
      assert others[i] in others;
    }
  }

  predicate Gives(o: Other, principal: string, share: string, verb: string) {
    o.Grant? && o.principal == principal && o.share == share && verb in o.verbs
  }

  lemma GrantsIn(others: seq<Other>, principal: string, share: string, verb: string)
    ensures verb in GrantedIn(others, principal, share) <==> exists o | o in others :: Gives(o, principal, share, verb)
  {
    if o :| o in others && Gives(o, principal, share, verb) {
      var i :| 0 <= i < |others| && others[i] == o;
      var j :| 0 <= j < |o.verbs| && o.verbs[j] == verb;
      assert others[i].verbs[j] == verb;
    }
    if verb in GrantedIn(others, principal, share) {
      var i, j :| 0 <= i < |others| && others[i].Grant? && others[i].principal == principal && others[i].share == share
                  && 0 <= j < |others[i].verbs| && others[i].verbs[j] == verb;
      assert others[i] in others && Gives(others[i], principal, share, verb);
    }
  }
}
