/** Ops, as the wire carries them, and the zones and chains they name. An op's `no` is its seq. */
module Ops {
  import opened Wrappers
  import opened Bytes
  import opened Text

  datatype Shape = Value | Log | Swmr | Crdt | OtherShape

  datatype Head = Head(origin: string, no: int, hash: Option<seq<byte>>)

  datatype Op = Op(
    share: string,
    gladeId: string,
    key: seq<byte>,
    origin: string,
    no: int,
    prev: Option<seq<byte>>,
    lamport: int,
    refs: seq<Head>,
    shape: Shape,
    payload: seq<byte>)

  datatype Zone = Zone(share: string, gladeId: string, key: seq<byte>)

  function ZoneOf(op: Op): Zone {
    Zone(op.share, op.gladeId, op.key)
  }

  predicate SameChain(a: Op, b: Op) {
    ZoneOf(a) == ZoneOf(b) && a.origin == b.origin
  }

  function KeyOf(op: Op): string {
    ChainKey(op.share, op.gladeId, op.key, op.origin)
  }

  function PrefixOf(z: Zone): string {
    ZonePrefix(z.share, z.gladeId, z.key)
  }

  predicate Plain(z: Zone) {
    NoNul(z.share) && NoNul(z.gladeId)
  }

  /** A chain's ops follow one another by seq. */
  predicate Contiguous(log: seq<Op>) {
    forall i | 0 <= i < |log| :: log[i].no == log[0].no + i
  }
}
