/**
 The chain of claims a node keeps of its own, with the tick that renews it and folds it under a
 checkpoint, as values: and which claims are superseded, in place.
 */
module Compaction {
  import opened Wrappers
  import opened Text
  import opened Claims

  /** A later claim of the chain keeps this one alive and ranked as long. */
  ghost predicate Superseded(claims: seq<ServeClaim>, i: nat)
    requires i < |claims|
  {
    exists j | i < j < |claims| :: Over(claims[j], claims[i])
  }

  /** `standing` are of the claims from `at` on, and one of them is over each of those. */
  ghost predicate Standing(claims: seq<ServeClaim>, at: nat, standing: seq<ServeClaim>)
    requires at <= |claims|
  {
    && (forall k | 0 <= k < |standing| :: standing[k] in claims[at..])
    && (forall i | at <= i < |claims| :: OverOne(standing, claims[i]))
  }

  predicate OverOne(standing: seq<ServeClaim>, claim: ServeClaim) {
    exists k | 0 <= k < |standing| :: Over(standing[k], claim)
  }

  /** One pass from the end, against the claims nothing later supersedes, finds exactly the claims
      some later claim supersedes. */
  method FindSuperseded(claims: seq<ServeClaim>) returns (gone: seq<bool>)
    ensures |gone| == |claims|
    ensures forall i | 0 <= i < |claims| :: gone[i] <==> Superseded(claims, i)
  {
    hide Superseded, Standing, OverOne;
    var marks := new bool[|claims|](_ => false);
    var standing: seq<ServeClaim> := [];
    var at := |claims|;
    assert Standing(claims, at, standing) by { NoneStanding(claims); }
    while at > 0
      invariant 0 <= at <= |claims|
      invariant forall i | at <= i < |claims| :: marks[i] <==> Superseded(claims, i)
      invariant Standing(claims, at, standing)
    {
      at := at - 1;
      OverStanding(claims, at, standing);
      marks[at] := OverOne(standing, claims[at]);
      if !marks[at] {
        standing := standing + [claims[at]];
      }
    }
    return marks[..];
  }

  lemma NoneStanding(claims: seq<ServeClaim>)
    ensures Standing(claims, |claims|, [])
  {
  }

  lemma OverStanding(claims: seq<ServeClaim>, at: nat, standing: seq<ServeClaim>)
    requires at < |claims| && Standing(claims, at + 1, standing)
    ensures OverOne(standing, claims[at]) <==> Superseded(claims, at)
    ensures Standing(claims, at, if OverOne(standing, claims[at]) then standing else standing + [claims[at]])
  {
    if OverOne(standing, claims[at]) {
      StandingIsLater(claims, at, standing);
      StillStanding(claims, at, standing);
    } else {
      NewStanding(claims, at, standing);
    }
    if Superseded(claims, at) {
      SomeStands(claims, at, standing);
    }
  }

  lemma StandingIsLater(claims: seq<ServeClaim>, at: nat, standing: seq<ServeClaim>)
    requires at < |claims| && Standing(claims, at + 1, standing) && OverOne(standing, claims[at])
    ensures Superseded(claims, at)
  {
    hide Over, OverOne;
    assert exists k | 0 <= k < |standing| :: Over(standing[k], claims[at]) by { OverOneIs(standing, claims[at]); }
    var k :| 0 <= k < |standing| && Over(standing[k], claims[at]);
    var later := claims[at + 1..];
    assert standing[k] in later;
    var j :| 0 <= j < |later| && later[j] == standing[k];
    assert Over(claims[at + 1 + j], claims[at]);
  }

  lemma OverOneIs(standing: seq<ServeClaim>, claim: ServeClaim)
    requires OverOne(standing, claim)
    ensures exists k | 0 <= k < |standing| :: Over(standing[k], claim)
  {
  }

  lemma SomeStands(claims: seq<ServeClaim>, at: nat, standing: seq<ServeClaim>)
    requires at < |claims| && Standing(claims, at + 1, standing) && Superseded(claims, at)
    ensures OverOne(standing, claims[at])
  {
    var j :| at < j < |claims| && Over(claims[j], claims[at]);
    assert OverOne(standing, claims[j]);
    var k :| 0 <= k < |standing| && Over(standing[k], claims[j]);
    assert Over(standing[k], claims[at]);
  }

  lemma StillStanding(claims: seq<ServeClaim>, at: nat, standing: seq<ServeClaim>)
    requires at < |claims| && Standing(claims, at + 1, standing) && OverOne(standing, claims[at])
    ensures Standing(claims, at, standing)
  {
    hide OverOne, Over;
    assert claims[at..] == [claims[at]] + claims[at + 1..];
  }

  lemma NewStanding(claims: seq<ServeClaim>, at: nat, standing: seq<ServeClaim>)
    requires at < |claims| && Standing(claims, at + 1, standing)
    ensures Standing(claims, at, standing + [claims[at]])
  {
    hide OverOne, Over;
    assert claims[at..] == [claims[at]] + claims[at + 1..];
    var more := standing + [claims[at]];
    forall i | at <= i < |claims| ensures OverOne(more, claims[i]) {
      MoreStanding(standing, claims[at], claims[i]);
    }
  }

  lemma MoreStanding(standing: seq<ServeClaim>, claim: ServeClaim, c: ServeClaim)
    requires OverOne(standing, c) || c == claim
    ensures OverOne(standing + [claim], c)
  {
    var more := standing + [claim];
    if c == claim {
      assert Over(more[|standing|], c);
    } else {
      var k :| 0 <= k < |standing| && Over(standing[k], c);
      assert Over(more[k], c);
    }
  }

  // The chain.

  /** An op of the chain: its seq, and the claim it decodes to, if it does. */
  datatype Held = Held(no: int, claim: Option<ServeClaim>)

  /** What the registry holds of the chain: its floor's base, once a checkpoint gave it one, and
      the ops above. */
  datatype Chain = Chain(base: Option<int>, ops: seq<Held>)

  function Tip(c: Chain): int {
    if c.ops != [] then c.ops[|c.ops| - 1].no else if c.base.Some? then c.base.value else -1
  }

  function Append(c: Chain, claim: ServeClaim): Chain {
    c.(ops := c.ops + [Held(Tip(c) + 1, Some(claim))])
  }

  function AppendAll(c: Chain, claims: seq<ServeClaim>): Chain {
    if claims == [] then c else Append(AppendAll(c, claims[..|claims| - 1]), claims[|claims| - 1])
  }

  function Above(ops: seq<Held>, base: int): seq<Held> {
    if ops == [] then []
    else Above(ops[..|ops| - 1], base) + if ops[|ops| - 1].no > base then [ops[|ops| - 1]] else []
  }

  /** The chain under a checkpoint of base `base`: what is past it stays. */
  function Place(c: Chain, base: int): Chain {
    Chain(Some(base), Above(c.ops, base))
  }

  function Decoded(ops: seq<Held>): seq<ServeClaim> {
    if ops == [] then []
    else
      var last := ops[|ops| - 1];
      Decoded(ops[..|ops| - 1]) + if last.claim.Some? then [last.claim.value] else []
  }

  ghost function CountSuperseded(claims: seq<ServeClaim>, n: nat): nat
    requires n <= |claims|
  {
    if n == 0 then 0 else CountSuperseded(claims, n - 1) + if Superseded(claims, n - 1) then 1 else 0
  }

  /** Of the first `n`, those nothing supersedes, in order. */
  ghost function Unsuperseded(claims: seq<ServeClaim>, n: nat): seq<ServeClaim>
    requires n <= |claims|
  {
    if n == 0 then [] else Unsuperseded(claims, n - 1) + if Superseded(claims, n - 1) then [] else [claims[n - 1]]
  }

  datatype Fold = Fold(base: Option<int>, carried: seq<ServeClaim>, covered: nat)

  /** What a tick that appends `renewals` folds: nothing, or the held claims at the chain's tip,
      those not superseded even by the renewals carried over it. */
  ghost function Due(held: seq<Held>, renewals: seq<ServeClaim>, after: nat): Fold {
    var claims := Decoded(held);
    if held == [] || |held| < after || CountSuperseded(claims, |claims|) < after then Fold(None, [], 0)
    else Fold(Some(held[|held| - 1].no), Unsuperseded(claims + renewals, |claims|), |held|)
  }

  datatype Folded = Folded(base: int, dropped: nat, carried: nat)

  /** A tick's appends: the claims carried, the renewals, and the checkpoint, when one is due. */
  ghost function Tick(c: Chain, renewals: seq<ServeClaim>, after: nat): (Chain, Option<Folded>) {
    var due := Due(c.ops, renewals, after);
    var c' := AppendAll(c, due.carried + renewals);
    match due.base
    case None => (c', None)
    case Some(base) =>
      CarriedAreHeld(c.ops, renewals);
      (Place(c', base), Some(Folded(base, due.covered - |due.carried|, |due.carried|)))
  }

  /** A fold carries no more claims than it covers ops, though some may not decode. */
  lemma CarriedAreHeld(held: seq<Held>, renewals: seq<ServeClaim>)
    ensures |Unsuperseded(Decoded(held) + renewals, |Decoded(held)|)| <= |held|
  {
    DecodedNoMore(held);
    UnsupersededNoMore(Decoded(held) + renewals, |Decoded(held)|);
  }

  lemma {:induction false} DecodedNoMore(held: seq<Held>)
    ensures |Decoded(held)| <= |held|
  {
    if held != [] { DecodedNoMore(held[..|held| - 1]); }
  }

  lemma {:induction false} UnsupersededNoMore(claims: seq<ServeClaim>, n: nat)
    requires n <= |claims|
    ensures |Unsuperseded(claims, n)| <= n
  {
    hide Superseded;
    if n > 0 { UnsupersededNoMore(claims, n - 1); }
  }

  // The directory a node writes: its claims chain and the shares it serves.

  datatype Served = Served(share: string, epoch: int)

  datatype Authority = Authority(node: string, chain: Chain, served: seq<Served>)

  function Enter(served: seq<Served>, s: Served): seq<Served> {
    if served == [] || Before(s.share, served[0].share) then [s] + served else [served[0]] + Enter(served[1..], s)
  }

  predicate Serves(served: seq<Served>, share: string) {
    exists i | 0 <= i < |served| :: served[i].share == share
  }

  /** Every served share's lease made to end at `expiry`, at the epoch it is served at. */
  function Renewals(node: string, served: seq<Served>, expiry: int): seq<ServeClaim> {
    seq(|served|, i requires 0 <= i < |served| => ServeClaim(node, served[i].share, expiry, served[i].epoch))
  }

  /** Configure a share: follow a known remote owner, or claim it at an epoch past any known. */
  function Serve(a: Authority, share: string, others: seq<ServeClaim>, expiry: int): Authority {
    var known := others + Decoded(a.chain.ops);
    if Serves(a.served, share) then a
    else if NodeOf(LastClaim(known, share)) !in {None, Some(a.node)} then a
    else
      var epoch := MaxClaimEpoch(known, share) + 1;
      a.(chain := Append(a.chain, ServeClaim(a.node, share, expiry, epoch)), served := Enter(a.served, Served(share, epoch)))
  }

  /** A renewal; `after` is how many superseded claims make a fold due, or no fold is ever made. */
  ghost function Renew(a: Authority, expiry: int, after: Option<nat>): Authority {
    var renewals := Renewals(a.node, a.served, expiry);
    if a.served == [] then a
    else a.(chain := match after case None => AppendAll(a.chain, renewals) case Some(n) => Tick(a.chain, renewals, n).0)
  }
}

/** The node's directory in place: its chain, appended to and folded, and what it serves. */
module ClaimsDirectory {
  import opened Wrappers
  import opened Streams
  import opened Text
  import opened Claims
  import opened Compaction
  import C = Compaction

  class Directory {
    const node: string
    var base: Option<int>
    var ops: seq<Held>
    var served: seq<Served>

    ghost function Now(): C.Authority
      reads this
    {
      C.Authority(node, Chain(base, ops), served)
    }

    constructor (node: string, home: int)
      ensures Now() == C.Authority(node, Chain(None, []), [Served(HOME, home)])
    {
      this.node, base, ops, served := node, None, [], [Served(HOME, home)];
    }

    method Append(claim: ServeClaim)
      modifies this`ops
      ensures Chain(base, ops) == C.Append(old(Chain(base, ops)), claim)
    {
      var tip := if ops != [] then ops[|ops| - 1].no else if base.Some? then base.value else -1;
      ops := ops + [Held(tip + 1, Some(claim))];
    }

    /** A checkpoint placed at `at`. */
    method Place(at: int)
      modifies this`ops, this`base
      ensures Chain(base, ops) == C.Place(old(Chain(base, ops)), at)
    {
      var kept := [];
      for i := 0 to |ops|
        invariant ops == old(ops) && kept == Above(ops[..i], at)
      {
        assert ops[..i + 1][..i] == ops[..i];
        if ops[i].no > at {
          kept := kept + [ops[i]];
        }
      }
      assert ops[..|ops|] == ops;
      base, ops := Some(at), kept;
    }

    method Claims() returns (claims: seq<ServeClaim>)
      ensures claims == Decoded(ops)
    {
      claims := [];
      for i := 0 to |ops|
        invariant claims == Decoded(ops[..i])
      {
        assert ops[..i + 1][..i] == ops[..i];
        if ops[i].claim.Some? {
          claims := claims + [ops[i].claim.value];
        }
      }
      assert ops[..|ops|] == ops;
    }

    method Due(renewals: seq<ServeClaim>, after: nat) returns (due: Fold)
      ensures due == C.Due(ops, renewals, after)
    {
      if ops == [] || |ops| < after {
        return Fold(None, [], 0);
      }
      var claims := Claims();
      var gone := FindSuperseded(claims);
      var count := 0;
      for i := 0 to |claims|
        invariant count == CountSuperseded(claims, i)
      {
        if gone[i] {
          count := count + 1;
        }
      }
      if count < after {
        return Fold(None, [], 0);
      }
      gone := FindSuperseded(claims + renewals);
      var carried := [];
      for i := 0 to |claims|
        invariant carried == Unsuperseded(claims + renewals, i)
      {
        if !gone[i] {
          carried := carried + [claims[i]];
        }
      }
      return Fold(Some(ops[|ops| - 1].no), carried, |ops|);
    }

    lemma AppendsOne(c: Chain, claims: seq<ServeClaim>, i: nat)
      requires i < |claims|
      ensures AppendAll(c, claims[..i + 1]) == C.Append(AppendAll(c, claims[..i]), claims[i])
    {
      assert claims[..i + 1][..i] == claims[..i];
    }

    method Tick(renewals: seq<ServeClaim>, after: nat) returns (folded: Option<Folded>)
      modifies this`ops, this`base
      ensures (Chain(base, ops), folded) == C.Tick(old(Chain(base, ops)), renewals, after)
    {
      hide Unsuperseded, Decoded, CountSuperseded, C.Append, C.Place;
      var due := Due(renewals, after);
      var claims := due.carried + renewals;
      for i := 0 to |claims|
        invariant Chain(base, ops) == AppendAll(old(Chain(base, ops)), claims[..i])
      {
        AppendsOne(old(Chain(base, ops)), claims, i);
        Append(claims[i]);
      }
      assert claims[..|claims|] == claims;
      if due.base.None? {
        return None;
      }
      CarriedAreHeld(old(ops), renewals);
      Place(due.base.value);
      return Some(Folded(due.base.value, due.covered - |due.carried|, |due.carried|));
    }

    method RenewLeases(expiry: int, after: nat) returns (folded: Option<Folded>)
      modifies this
      ensures Now() == Renew(old(Now()), expiry, Some(after))
    {
      if served == [] {
        return None;
      }
      var renewals := [];
      for i := 0 to |served|
        invariant renewals == Renewals(node, served[..i], expiry)
      {
        renewals := renewals + [ServeClaim(node, served[i].share, expiry, served[i].epoch)];
      }
      assert served[..|served|] == served;
      folded := Tick(renewals, after);
    }

    /** `others` are the other nodes' claims this node's served store holds. */
    method ServeWorkspace(share: string, others: seq<ServeClaim>, expiry: int) returns (minted: bool)
      modifies this
      ensures Now() == Serve(old(Now()), share, others, expiry)
      ensures minted <==> Now() != old(Now())
    {
      if exists i | 0 <= i < |served| :: served[i].share == share {
        return false;
      }
      var own := Claims();
      var prior := FoldBest(others + own, share, None);
      if prior.Some? && prior.value.node != node {
        return false;
      }
      var epoch := (if prior.Some? then prior.value.epoch else 0) + 1;
      Append(ServeClaim(node, share, expiry, epoch));
      served := Enter(served, Served(share, epoch));
      return true;
    }
  }
}
