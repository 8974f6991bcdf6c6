/**
 The browser's store of ops, as values: its chains in the order they came, what an append
 takes, what a refusal drops, and the two halves of a sync.
 */
module Stores {
  import opened Wrappers
  import opened Bytes
  import opened Text
  import opened Ops
  import opened Sessions

  /** `order` lists the chains' keys as they were first stored. */
  datatype Chains = Chains(order: seq<string>, logs: Logs)

  datatype Appending = Appended | Duplicate | Equivocation | Gap(expected: int) | ChainBreak

  /** What an append of `op` to its chain makes of it. */
  function Judge(log: seq<Op>, hash: Op -> seq<byte>, op: Op): Appending {
    if log == [] then Appended
    else
      var last := log[|log| - 1];
      if op.no <= last.no then
        var at := FirstAt(log, op.no);
        if at < |log| && hash(log[at]) != hash(op) then Equivocation else Duplicate
      else if op.no != last.no + 1 then Gap(last.no + 1)
      else if op.prev.Some? && op.prev.value != hash(last) then ChainBreak
      else Appended
  }

  function FirstAt(log: seq<Op>, no': int): (at: nat)
    ensures at <= |log| && (at < |log| ==> log[at].no == no') && forall i | 0 <= i < at :: log[i].no != no'
  {
    if log == [] || log[0].no == no' then 0 else 1 + FirstAt(log[1..], no')
  }

  function FirstFrom(log: seq<Op>, no': int): (at: nat)
    ensures at <= |log| && (at < |log| ==> log[at].no >= no') && forall i | 0 <= i < at :: log[i].no < no'
  {
    if log == [] || log[0].no >= no' then 0 else 1 + FirstFrom(log[1..], no')
  }

  function Push(s: Chains, op: Op): Chains {
    var k := KeyOf(op);
    Chains(if k in s.logs then s.order else s.order + [k], s.logs[k := LogOf(s.logs, k) + [op]])
  }

  function AppendOp(s: Chains, hash: Op -> seq<byte>, op: Op): (Chains, Appending) {
    var judged := Judge(LogOf(s.logs, KeyOf(op)), hash, op);
    (if judged == Appended then Push(s, op) else s, judged)
  }

  function WithoutKey(order: seq<string>, k: string): seq<string> {
    if order == [] then []
    else WithoutKey(order[..|order| - 1], k) + if order[|order| - 1] == k then [] else [order[|order| - 1]]
  }

  /** A chain's ops go from `no'` on; one left with none is forgotten. */
  function DropFrom(s: Chains, k: string, no': int): Chains {
    var log := LogOf(s.logs, k);
    var at := FirstFrom(log, no');
    if at == |log| then s
    else if at == 0 then Chains(WithoutKey(s.order, k), s.logs - {k})
    else s.(logs := s.logs[k := log[..at]])
  }

  predicate OfShare(share: string, k: string) {
    share + [NUL] <= k
  }

  /** The last seq of each of a share's chains. */
  function Heads(s: Chains, share: string): map<string, int> {
    map k | k in s.logs && OfShare(share, k) && s.logs[k] != [] :: s.logs[k][|s.logs[k]| - 1].no
  }

  function Past(log: seq<Op>, from: Option<int>): seq<Op> {
    if log == [] then []
    else
      var op := log[|log| - 1];
      Past(log[..|log| - 1], from) + if from.None? || op.no > from.value then [op] else []
  }

  function HeadIn(heads: map<string, int>, k: string): Option<int> {
    if k in heads then Some(heads[k]) else None
  }

  function Missing(logs: Logs, order: seq<string>, share: string, their: map<string, int>): seq<Op> {
    if order == [] then []
    else
      var k := order[|order| - 1];
      Missing(logs, order[..|order| - 1], share, their) +
        if OfShare(share, k) then Past(LogOf(logs, k), HeadIn(their, k)) else []
  }

  /** The share's ops past `their` head of each chain. */
  function MissingFor(s: Chains, share: string, their: map<string, int>): seq<Op> {
    Missing(s.logs, s.order, share, their)
  }

  /** A zone's ops, its chains as they were first stored. */
  function OpsIn(logs: Logs, order: seq<string>, prefix: string): seq<Op> {
    if order == [] then []
    else
      var k := order[|order| - 1];
      OpsIn(logs, order[..|order| - 1], prefix) + if prefix <= k then LogOf(logs, k) else []
  }

  function OpsFor(s: Chains, z: Zone): seq<Op> {
    OpsIn(s.logs, s.order, PrefixOf(z))
  }

  function Dump(s: Chains): seq<Op> {
    Concat(s.logs, s.order)
  }

  /** Ops applied one by one, those not taken passed over. */
  function AppendAll(s: Chains, hash: Op -> seq<byte>, ops: seq<Op>): Chains {
    if ops == [] then s else AppendOp(AppendAll(s, hash, ops[..|ops| - 1]), hash, ops[|ops| - 1]).0
  }

  const NONE := Chains([], map[])

  /** Rebuild from a dump; an append that throws throws it all away. */
  function Load(hash: Op -> seq<byte>, ops: seq<Op>): Option<Chains> {
    if ops == [] then Some(NONE)
    else
      match Load(hash, ops[..|ops| - 1])
      case None => None
      case Some(s) =>
        var (s', judged) := AppendOp(s, hash, ops[|ops| - 1]);
        if judged == Appended || judged == Duplicate then Some(s') else None
  }
}

/** The store in place. */
module StoreLog {
  import opened Wrappers
  import opened Bytes
  import opened Text
  import opened Ops
  import opened Sessions
  import opened Stores
  import T = Stores

  class Store {
    const hash: Op -> seq<byte>
    var order: seq<string>
    var logs: Logs

    ghost function Now(): Chains
      reads this
    {
      Chains(order, logs)
    }

    /** The map lists its own keys. */
    ghost predicate Valid()
      reads this
    {
      (forall k :: k in order <==> k in logs)
    }

    constructor (hash: Op -> seq<byte>)
      ensures Now() == NONE && this.hash == hash && Valid()
    {
      this.hash, order, logs := hash, [], map[];
    }

    method Append(op: Op) returns (r: Appending)
      requires Valid()
      modifies this
      ensures Valid() && (Now(), r) == AppendOp(old(Now()), hash, op)
    {
      var k := KeyOf(op);
      var log := LogOf(logs, k);
      if log != [] {
        var last := log[|log| - 1];
        if op.no <= last.no {
          var at := 0;
          while at < |log| && log[at].no != op.no
            invariant at <= |log| && forall i | 0 <= i < at :: log[i].no != op.no
          {
            at := at + 1;
          }
          assert at == FirstAt(log, op.no);
          if at < |log| && hash(log[at]) != hash(op) {
            return Equivocation;
          }
          return Duplicate;
        }
        if op.no != last.no + 1 {
          return Gap(last.no + 1);
        }
        if op.prev.Some? && op.prev.value != hash(last) {
          return ChainBreak;
        }
      }
      if k !in logs {
        order := order + [k];
      }
      logs := logs[k := log + [op]];
      return Appended;
    }

    method DropFrom(z: Zone, origin: string, no': int)
      requires Valid()
      modifies this
      ensures Valid() && Now() == T.DropFrom(old(Now()), ChainKey(z.share, z.gladeId, z.key, origin), no')
    {
      var k := ChainKey(z.share, z.gladeId, z.key, origin);
      var log := LogOf(logs, k);
      var at := 0;
      while at < |log| && log[at].no < no'
        invariant at <= |log| && forall i | 0 <= i < at :: log[i].no < no'
      {
        at := at + 1;
      }
      assert at == FirstFrom(log, no');
      if at == |log| {
        return;
      }
      if at == 0 {
        WithoutKeyIs(order, k);
        order, logs := WithoutKey(order, k), logs - {k};
      } else {
        logs := logs[k := log[..at]];
      }
    }

    lemma {:induction false} WithoutKeyIs(order: seq<string>, k: string)
      ensures forall j :: j in WithoutKey(order, k) <==> j in order && j != k
    {
      if order != [] {
        WithoutKeyIs(order[..|order| - 1], k);
        assert order == order[..|order| - 1] + [order[|order| - 1]];
      }
    }

    method Heads(share: string) returns (heads: map<string, int>)
      requires Valid()
      ensures heads == T.Heads(Now(), share)
    {
      heads := map[];
      for i := 0 to |order|
        invariant heads == map k | k in order[..i] && k in logs && OfShare(share, k) && logs[k] != [] :: logs[k][|logs[k]| - 1].no
      {
        var k := order[i];
        assert order[..i + 1] == order[..i] + [k] && k in order;
        if OfShare(share, k) && logs[k] != [] {
          heads := heads[k := logs[k][|logs[k]| - 1].no];
        }
      }
      assert order[..|order|] == order;
    }

    method Scan(log: seq<Op>, from: Option<int>) returns (ops: seq<Op>)
      ensures ops == Past(log, from)
    {
      ops := [];
      for i := 0 to |log|
        invariant ops == Past(log[..i], from)
      {
        assert log[..i + 1][..i] == log[..i];
        if from.None? || log[i].no > from.value {
          ops := ops + [log[i]];
        }
      }
      assert log[..|log|] == log;
    }

    method MissingFor(share: string, their: map<string, int>) returns (ops: seq<Op>)
      ensures ops == T.MissingFor(Now(), share, their)
    {
      ops := [];
      for i := 0 to |order|
        invariant ops == Missing(logs, order[..i], share, their)
      {
        assert order[..i + 1][..i] == order[..i] && ops + [] == ops;
        if OfShare(share, order[i]) {
          var past := Scan(LogOf(logs, order[i]), HeadIn(their, order[i]));
          ops := ops + past;
        }
      }
      assert order[..|order|] == order;
    }

    method OpsFor(z: Zone) returns (ops: seq<Op>)
      ensures ops == T.OpsFor(Now(), z)
    {
      ops := [];
      var prefix := PrefixOf(z);
      for i := 0 to |order|
        invariant ops == OpsIn(logs, order[..i], prefix)
      {
        assert order[..i + 1][..i] == order[..i] && ops + [] == ops;
        if prefix <= order[i] {
          ops := ops + LogOf(logs, order[i]);
        }
      }
      assert order[..|order|] == order;
    }

    method Dump() returns (ops: seq<Op>)
      ensures ops == T.Dump(Now())
    {
      ops := [];
      for i := 0 to |order|
        invariant ops == Concat(logs, order[..i])
      {
        assert order[..i + 1][..i] == order[..i];
        ops := ops + LogOf(logs, order[i]);
      }
      assert order[..|order|] == order;
    }

    /** A batch from a peer: an op the store does not take changes nothing. */
    method ApplyRemote(ops: seq<Op>)
      requires Valid()
      modifies this
      ensures Valid() && Now() == AppendAll(old(Now()), hash, ops)
    {
      for i := 0 to |ops|
        invariant Valid() && Now() == AppendAll(old(Now()), hash, ops[..i])
      {
        assert ops[..i + 1][..i] == ops[..i];
        var _ := Append(ops[i]);
      }
      assert ops[..|ops|] == ops;
    }
  }

  method LoadStore(hash: Op -> seq<byte>, ops: seq<Op>) returns (s: Store, ok: bool)
    ensures fresh(s) && s.hash == hash && s.Valid()
    ensures match Load(hash, ops) case None => !ok case Some(chains) => ok && s.Now() == chains
  {
    s := new Store(hash);
    for i := 0 to |ops|
      invariant fresh(s) && s.hash == hash && s.Valid() && Load(hash, ops[..i]) == Some(s.Now())
    {
      assert ops[..i + 1][..i] == ops[..i];
      var r := s.Append(ops[i]);
      if r != Appended && r != Duplicate {
        LoadFails(hash, ops, i + 1);
        return s, false;
      }
    }
    assert ops[..|ops|] == ops;
    return s, true;
  }

  lemma {:induction false} LoadFails(hash: Op -> seq<byte>, ops: seq<Op>, n: nat)
    requires n <= |ops| && Load(hash, ops[..n]).None?
    ensures Load(hash, ops).None?
    decreases |ops| - n
  {
    if n < |ops| {
      assert ops[..n + 1][..n] == ops[..n];
      LoadFails(hash, ops, n + 1);
    } else {
      assert ops[..n] == ops;
    }
  }
}
