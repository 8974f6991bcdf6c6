/**
 The calls a node has handed to attached providers and not seen answered, as values, and in
 place: each filed under a correlation the node mints.
 */
module Exchanges {
  import opened Wrappers
  import opened Bytes
  import opened Text

  type Session = nat

  /** A filed call: its caller and the caller's own correlation, and the session it was handed to. */
  datatype Call = Call(caller: Session, corr: string, provider: Session)

  datatype Filed = Filed(minted: string, call: Call)

  /** `calls` are in the order of their minted correlations, as a sorted map lists them. */
  datatype Pending = Pending(minted: nat, calls: seq<Filed>)

  function Minted(n: nat): string {
    "n" + Decimal(n)
  }

  function Enter(calls: seq<Filed>, f: Filed): seq<Filed> {
    if calls == [] || Before(f.minted, calls[0].minted) then [f] + calls else [calls[0]] + Enter(calls[1..], f)
  }

  function File(p: Pending, caller: Session, corr: string, provider: Session): (Pending, string) {
    var minted := Minted(p.minted + 1);
    (Pending(p.minted + 1, Enter(p.calls, Filed(minted, Call(caller, corr, provider)))), minted)
  }

  function At(calls: seq<Filed>, minted: string): (at: nat)
    ensures at <= |calls| && (at < |calls| ==> calls[at].minted == minted) && forall i | 0 <= i < at :: calls[i].minted != minted
  {
    if calls == [] || calls[0].minted == minted then 0 else 1 + At(calls[1..], minted)
  }

  function Without(p: Pending, at: nat): Pending
    requires at < |p.calls|
  {
    p.(calls := p.calls[..at] + p.calls[at + 1..])
  }

  /** A provider's reply: the call it answers, filed no longer. */
  function Answered(p: Pending, provider: Session, minted: string): (Pending, Option<Call>) {
    var at := At(p.calls, minted);
    if at == |p.calls| || p.calls[at].call.provider != provider then (p, None) else (Without(p, at), Some(p.calls[at].call))
  }

  function Expired(p: Pending, minted: string): (Pending, Option<Call>) {
    var at := At(p.calls, minted);
    if at == |p.calls| then (p, None) else (Without(p, at), Some(p.calls[at].call))
  }

  predicate Of(c: Call, sid: Session) {
    c.caller == sid || c.provider == sid
  }

  function Kept(calls: seq<Filed>, sid: Session): seq<Filed> {
    if calls == [] then []
    else Kept(calls[..|calls| - 1], sid) + if Of(calls[|calls| - 1].call, sid) then [] else [calls[|calls| - 1]]
  }

  function Orphaned(calls: seq<Filed>, sid: Session): seq<Call> {
    if calls == [] then []
    else
      var c := calls[|calls| - 1].call;
      Orphaned(calls[..|calls| - 1], sid) + if c.provider == sid && c.caller != sid then [c] else []
  }

  /** A session's end: no call it filed stays, and the calls handed to it come back as orphans. */
  function Ended(p: Pending, sid: Session): (Pending, seq<Call>) {
    (p.(calls := Kept(p.calls, sid)), Orphaned(p.calls, sid))
  }
}

module PendingCalls {
  import opened Wrappers
  import opened Text
  import opened Exchanges
  import X = Exchanges

  class Pending {
    var minted: nat
    var calls: seq<Filed>

    ghost function Now(): X.Pending
      reads this
    {
      X.Pending(minted, calls)
    }

    constructor ()
      ensures Now() == X.Pending(0, [])
    {
      minted, calls := 0, [];
    }

    method File(caller: Session, corr: string, provider: Session) returns (m: string)
      modifies this
      ensures (Now(), m) == X.File(old(Now()), caller, corr, provider)
    {
      minted := minted + 1;
      m := Minted(minted);
      calls := Enter(calls, Filed(m, Call(caller, corr, provider)));
    }

    method Find(m: string) returns (at: nat)
      ensures at == At(calls, m)
    {
      at := 0;
      while at < |calls| && calls[at].minted != m
        invariant at <= |calls| && forall i | 0 <= i < at :: calls[i].minted != m
      {
        at := at + 1;
      }
    }

    method Answered(provider: Session, m: string) returns (call: Option<Call>)
      modifies this`calls
      ensures (Now(), call) == X.Answered(old(Now()), provider, m)
    {
      var at := Find(m);
      if at == |calls| || calls[at].call.provider != provider {
        return None;
      }
      call := Some(calls[at].call);
      calls := calls[..at] + calls[at + 1..];
    }

    method Expired(m: string) returns (call: Option<Call>)
      modifies this`calls
      ensures (Now(), call) == X.Expired(old(Now()), m)
    {
      var at := Find(m);
      if at == |calls| {
        return None;
      }
      call := Some(calls[at].call);
      calls := calls[..at] + calls[at + 1..];
    }

    method Ended(sid: Session) returns (orphaned: seq<Call>)
      modifies this`calls
      ensures (Now(), orphaned) == X.Ended(old(Now()), sid)
    {
      orphaned := [];
      var kept: seq<Filed> := [];
      for i := 0 to |calls|
        invariant calls == old(calls) && kept == Kept(calls[..i], sid) && orphaned == Orphaned(calls[..i], sid)
      {
        assert calls[..i + 1][..i] == calls[..i];
        var call := calls[i].call;
        if call.provider == sid && call.caller != sid {
          orphaned := orphaned + [call];
        }
        if call.caller != sid && call.provider != sid {
          kept := kept + [calls[i]];
        }
      }
      assert calls[..|calls|] == calls;
      calls := kept;
    }
  }
}
