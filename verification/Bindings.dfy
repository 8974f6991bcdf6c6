/**
 The directory's bindings and what an app file's registration appends, as values. A registry
 here is the binding family's ops, in the order taken, and the other records.
 */
module Bindings {
  import opened Wrappers
  import opened Bytes
  import opened Text

  /** A binding line: its app, its glade id, and the rest of its record. */
  datatype Binding = Binding(app: string, gladeId: string, terms: seq<string>)

  datatype Rec = Declares(b: Binding) | Retracts(app: string, gladeId: string)

  datatype Pair = Pair(app: string, gladeId: string)

  function Of(rec: Rec): Pair {
    match rec case Declares(b) => Pair(b.app, b.gladeId) case Retracts(app, gladeId) => Pair(app, gladeId)
  }

  datatype BindingOp = BindingOp(origin: string, lamport: int, no: int, rec: Rec)

  /** Where a record stands: by lamport, then origin, then a retraction over a declaration, then seq. */
  predicate Above(a: BindingOp, b: BindingOp) {
    if a.lamport != b.lamport then a.lamport > b.lamport
    else if a.origin != b.origin then Before(b.origin, a.origin)
    else if a.rec.Retracts? != b.rec.Retracts? then a.rec.Retracts?
    else a.no > b.no
  }

  /** One origin's newest record for a pair. */
  function Newest(ops: seq<BindingOp>, p: Pair, origin: string): Option<BindingOp> {
    if ops == [] then None
    else
      var newest, op := Newest(ops[..|ops| - 1], p, origin), ops[|ops| - 1];
      if Of(op.rec) == p && op.origin == origin && (newest.None? || Above(op, newest.value)) then Some(op) else newest
  }

  /** A declaration its origin has not replaced or retracted. */
  predicate Live(ops: seq<BindingOp>, op: BindingOp) {
    op.rec.Declares? && Newest(ops, Of(op.rec), op.origin) == Some(op)
  }

  /** Of `some`, the highest declaration live in `ops` for a pair. */
  function Highest(some: seq<BindingOp>, ops: seq<BindingOp>, p: Pair): Option<BindingOp> {
    if some == [] then None
    else
      var best, op := Highest(some[..|some| - 1], ops, p), some[|some| - 1];
      if Of(op.rec) == p && Live(ops, op) && (best.None? || Above(op, best.value)) then Some(op) else best
  }

  /** The declaration standing for a pair. */
  function Standing(ops: seq<BindingOp>, p: Pair): Option<Binding> {
    match Highest(ops, ops, p) case None => None case Some(op) => if op.rec.Declares? then Some(op.rec.b) else None
  }

  function Insert(ids: seq<string>, id: string): seq<string> {
    if ids == [] || Before(id, ids[0]) then [id] + ids
    else if ids[0] == id then ids
    else [ids[0]] + Insert(ids[1..], id)
  }

  /** The glade ids `app` has a declaration standing for, of those `some` name, in order. */
  function LiveIds(some: seq<BindingOp>, ops: seq<BindingOp>, app: string): seq<string> {
    if some == [] then []
    else
      var ids, p := LiveIds(some[..|some| - 1], ops, app), Of(some[|some| - 1].rec);
      if p.app == app && Standing(ops, p).Some? then Insert(ids, p.gladeId) else ids
  }

  // Appends.

  /** One past the highest lamport of the family. */
  function NextLamport(ops: seq<BindingOp>): Option<int> {
    if ops == [] then None
    else
      var highest, next := NextLamport(ops[..|ops| - 1]), ops[|ops| - 1].lamport + 1;
      if highest.None? || next >= highest.value then Some(next) else highest
  }

  /** One past the last seq of an origin's chain, on the stream of declarations or of retractions. */
  function NextNo(ops: seq<BindingOp>, origin: string, retraction: bool): int {
    if ops == [] then 0
    else
      var op := ops[|ops| - 1];
      if op.origin == origin && op.rec.Retracts? == retraction then op.no + 1 else NextNo(ops[..|ops| - 1], origin, retraction)
  }

  function Made(ops: seq<BindingOp>, origin: string, rec: Rec): BindingOp {
    var lamport := match NextLamport(ops) case None => 0 case Some(n) => n;
    BindingOp(origin, lamport, NextNo(ops, origin, rec.Retracts?), rec)
  }

  function Push(ops: seq<BindingOp>, origin: string, rec: Rec): seq<BindingOp> {
    ops + [Made(ops, origin, rec)]
  }

  // The other records: each is on its stream, and diffs by its bytes.

  datatype Other =
    | Grant(principal: string, share: string, verbs: seq<string>)
    | Revoke(principal: string, share: string)
    | UnreadableRevocation(bytes: seq<byte>)
    | Plain(gladeId: string, bytes: seq<byte>)

  function GrantedIn(others: seq<Other>, principal: string, share: string): set<string> {
    set i, j | 0 <= i < |others| && others[i].Grant? && others[i].principal == principal && others[i].share == share
             && 0 <= j < |others[i].verbs| :: others[i].verbs[j]
  }

  /** Whether a pair is revoked: a revocation that cannot be read may be anyone's. */
  predicate Revoked(others: seq<Other>, principal: string, share: string) {
    exists i | 0 <= i < |others| :: others[i] == Revoke(principal, share) || others[i].UnreadableRevocation?
  }

  function GrantsFor(others: seq<Other>, principal: string, share: string): set<string> {
    if Revoked(others, principal, share) then {} else GrantedIn(others, principal, share)
  }

  // Registering a file.

  /** An app file, parsed: its app, its binding lines, and its other lines' records, those of its
      workspaces naming the node that loads it. */
  datatype AppDecl = AppDecl(app: string, bindings: seq<Binding>, others: seq<Other>)

  /** Every line is of the file's app, and no two bind one glade id. */
  predicate Parsed(d: AppDecl) {
    && (forall i | 0 <= i < |d.bindings| :: d.bindings[i].app == d.app)
    && (forall i, j | 0 <= i < j < |d.bindings| :: d.bindings[i].gladeId != d.bindings[j].gladeId)
  }

  predicate Lists(d: AppDecl, gladeId: string) {
    exists i | 0 <= i < |d.bindings| :: d.bindings[i].gladeId == gladeId
  }

  datatype Registry = Registry(family: seq<BindingOp>, others: seq<Other>)

  /** The first `n` binding lines: each whose declaration does not stand already is declared. */
  function Declare(d: AppDecl, start: seq<BindingOp>, origin: string, n: nat): seq<BindingOp>
    requires n <= |d.bindings|
  {
    if n == 0 then start
    else
      var b, before := d.bindings[n - 1], Declare(d, start, origin, n - 1);
      if Standing(start, Pair(d.app, b.gladeId)) == Some(b) then before else Push(before, origin, Declares(b))
  }

  /** Each of `ids` the file does not list is retracted. */
  function Retract(d: AppDecl, ids: seq<string>, ops: seq<BindingOp>, origin: string): seq<BindingOp> {
    if ids == [] then ops
    else
      var before, id := Retract(d, ids[..|ids| - 1], ops, origin), ids[|ids| - 1];
      if Lists(d, id) then before else Push(before, origin, Retracts(d.app, id))
  }

  /** The records of `some` not there at the start. */
  function NewIn(some: seq<Other>, start: seq<Other>): seq<Other> {
    if some == [] then []
    else NewIn(some[..|some| - 1], start) + if some[|some| - 1] in start then [] else [some[|some| - 1]]
  }

  function Register(r: Registry, d: AppDecl, origin: string): Registry {
    Registry(
      Retract(d, LiveIds(r.family, r.family, d.app), Declare(d, r.family, origin, |d.bindings|), origin),
      r.others + NewIn(d.others, r.others))
  }

  /** How many records a registration appended. */
  function Appended(before: Registry, after: Registry): int {
    |after.family| - |before.family| + |after.others| - |before.others|
  }

  /** A start's files, one after another. */
  function RegisterAll(r: Registry, files: seq<AppDecl>, origin: string): Registry {
    if files == [] then r else Register(RegisterAll(r, files[..|files| - 1], origin), files[|files| - 1], origin)
  }
}

/** The registry in place. */
module BindingRegistry {
  import opened Wrappers
  import opened Text
  import opened Bindings
  import B = Bindings

  class Registry {
    var family: seq<BindingOp>
    var others: seq<Other>

    ghost function Now(): B.Registry
      reads this
    {
      B.Registry(family, others)
    }

    constructor ()
      ensures Now() == B.Registry([], [])
    {
      family, others := [], [];
    }

    method Append(origin: string, rec: Rec)
      modifies this`family
      ensures family == Push(old(family), origin, rec)
    {
      family := family + [Made(family, origin, rec)];
    }

    /** What a registration did: the records appended, and those that were there. */
    method Register(d: AppDecl, origin: string) returns (appended: nat, kept: nat)
      modifies this
      ensures Now() == B.Register(old(Now()), d, origin)
      ensures appended == Appended(old(Now()), Now())
      ensures appended + kept == |d.bindings| + |d.others| + |family| - |Declare(d, old(family), origin, |d.bindings|)|
    {
      hide Standing, LiveIds, Made;
      var start, existing := family, others;
      appended, kept := 0, 0;
      for i := 0 to |d.bindings|
        invariant others == existing && family == Declare(d, start, origin, i) && appended == |family| - |start|
        invariant appended + kept == i
      {
        var b := d.bindings[i];
        if Standing(start, Pair(d.app, b.gladeId)) == Some(b) {
          kept := kept + 1;
        } else {
          Append(origin, Declares(b));
          appended := appended + 1;
        }
      }
      var live := LiveIds(start, start, d.app);
      for i := 0 to |live|
        invariant others == existing && appended == |family| - |start|
        invariant family == Retract(d, live[..i], Declare(d, start, origin, |d.bindings|), origin)
        invariant appended + kept == |d.bindings| + |family| - |Declare(d, start, origin, |d.bindings|)|
      {
        assert live[..i + 1][..i] == live[..i];
        if !exists k | 0 <= k < |d.bindings| :: d.bindings[k].gladeId == live[i] {
          Append(origin, Retracts(d.app, live[i]));
          appended := appended + 1;
        }
      }
      assert live[..|live|] == live;
      for i := 0 to |d.others|
        invariant family == Retract(d, live, Declare(d, start, origin, |d.bindings|), origin)
        invariant others == existing + NewIn(d.others[..i], existing)
        invariant appended == |family| - |start| + |others| - |existing|
        invariant appended + kept == |d.bindings| + i + |family| - |Declare(d, start, origin, |d.bindings|)|
      {
        assert d.others[..i + 1][..i] == d.others[..i];
        assert others + [] == others;
        if d.others[i] in existing {
          kept := kept + 1;
        } else {
          others := others + [d.others[i]];
          appended := appended + 1;
        }
      }
      assert d.others[..|d.others|] == d.others;
    }
  }
}
