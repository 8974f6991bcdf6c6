/**
 The envelope a home record travels in, as expressions over its bytes: what opens, what is a
 record of its stream's kind, what a payload read from disk is, and what an ingest accepts.
 Signing itself is a predicate.
 */
module Envelope {
  import opened Wrappers
  import opened Bytes
  import opened Text
  import opened Ops
  import opened Streams
  import C = Cbors
  import CborLaws

  datatype Why = Unsigned | Form | Prev | Stream | Kind | Origin | Signature | Checkpoint

  datatype Verdict = Accepted | Refused(why: Why)

  datatype Envelope = Envelope(record: seq<byte>, sig: seq<byte>)

  const SIG := 64

  function EnvelopeMap(e: Envelope): C.Cbor {
    C.Map([C.Entry(1, C.Bytes(e.record)), C.Entry(2, C.Bytes(e.sig))])
  }

  /** An envelope's bytes. */
  function Sealed(e: Envelope): seq<byte> {
    C.Encode(EnvelopeMap(e))
  }

  /** An envelope from the one encoding of it, and from no other bytes. */
  function Open(payload: seq<byte>): Option<Envelope> {
    match C.Parse(payload)
    case Some(Map(fields)) =>
      if |fields| == 2 && fields[0].key == 1 && fields[0].value.Bytes? && fields[1].key == 2 && fields[1].value.Bytes?
         && |fields[1].value.raw| == SIG && C.Encode(C.Map(fields)) == payload
      then Some(Envelope(fields[0].value.raw, fields[1].value.raw)) else None
    case _ => None
  }

  function RecordBytes(payload: seq<byte>): seq<byte> {
    match Open(payload) case Some(e) => e.record case None => payload
  }

  datatype Field = TextField | IntField | BytesField | TextsField

  /** Each directory stream's record, as the types of its fields in key order. */
  function KindOf(gladeId: string): Option<seq<Field>> {
    if gladeId in {G_NODES, G_REVOCATIONS, G_BINDING_RETRACTIONS, G_RECOVERY_KEYS} then Some([TextField, TextField])
    else if gladeId in {G_WORKSPACES, G_GRANTS} then Some([TextField, TextField, TextsField])
    else if gladeId == G_CLAIMS then Some([TextField, TextField, IntField, IntField])
    else if gladeId == G_BINDINGS then Some([TextField, TextField, TextField, TextField, TextField, TextField])
    else if gladeId == G_SERVICES then Some([TextField, TextField, TextField])
    else if gladeId == G_PRINCIPALS then Some([TextField])
    else if gladeId in {G_TRANSPORT_BINDINGS, G_CHECKPOINTS} then Some([TextField, TextField, IntField, BytesField])
    else if gladeId == G_TRANSPORT_REVOCATIONS then Some([TextField, TextField, BytesField])
    else None
  }

  predicate HasType(v: C.Cbor, f: Field) {
    match f
    case TextField => v.Text?
    case IntField => v.Int?
    case BytesField => v.Bytes?
    case TextsField => v.Array? && forall i | 0 <= i < |v.items| :: v.items[i].Text?
  }

  /** The entries are the fields in order: entry i under key i + 1, of field i's type. */
  predicate Typed(entries: seq<C.Entry>, fields: seq<Field>) {
    |entries| == |fields| && forall i | 0 <= i < |fields| :: entries[i].key == i + 1 && HasType(entries[i].value, fields[i])
  }

  predicate IsKind(record: seq<byte>, fields: seq<Field>) {
    match C.Parse(record)
    case Some(Map(entries)) => Typed(entries, fields) && C.Encode(C.Map(entries)) == record
    case _ => false
  }

  // Text in records.

  function EncodedChar(c: char): seq<byte> {
    var n := c as int;
    if n < 0x80 then [n]
    else if n < 0x800 then [0xC0 + n / 0x40, 0x80 + n % 0x40]
    else if n < 0x1_0000 then [0xE0 + n / 0x1000, 0x80 + n / 0x40 % 0x40, 0x80 + n % 0x40]
    else [0xF0 + n / 0x4_0000, 0x80 + n / 0x1000 % 0x40, 0x80 + n / 0x40 % 0x40, 0x80 + n % 0x40]
  }

  /** A string's UTF-8. */
  function Encoded(s: string): seq<byte> {
    if s == "" then [] else EncodedChar(s[0]) + Encoded(s[1..])
  }

  // Checkpoints.

  datatype ChainCheckpoint = ChainCheckpoint(node: seq<byte>, stream: seq<byte>, no: int, hash: seq<byte>)

  function ReadCheckpoint(record: seq<byte>): Option<ChainCheckpoint> {
    match C.Parse(record)
    case Some(Map(f)) =>
      if |f| == 4 && f[0].key == 1 && f[0].value.Text? && f[1].key == 2 && f[1].value.Text?
         && f[2].key == 3 && f[2].value.Int? && f[3].key == 4 && f[3].value.Bytes?
      then Some(ChainCheckpoint(f[0].value.raw, f[1].value.raw, f[2].value.n, f[3].value.raw)) else None
    case _ => None
  }

  /** The one stream this build compacts. */
  predicate Compacts(stream: seq<byte>) {
    stream == Encoded(G_CLAIMS)
  }

  const HASH := 32

  /** The payload reads as a checkpoint whose node is the op's own, whose stream `Compacts`, whose base
      is a natural number and whose hash has `HASH` bytes. */
  predicate ChecksOut(op: Op) {
    match ReadCheckpoint(RecordBytes(op.payload))
    case None => false
    case Some(c) => c.node == Encoded(op.origin) && Compacts(c.stream) && c.no >= 0 && |c.hash| == HASH
  }

  // A payload read from disk.

  datatype Format = SealedHere | BareRecord | Unknown

  function FormatOf(op: Op): Format {
    match Open(op.payload)
    case Some(e) =>
      var fields := KindOf(op.gladeId);
      var ours := op.gladeId != G_CHECKPOINTS
        || (ReadCheckpoint(e.record).Some? && Compacts(ReadCheckpoint(e.record).value.stream));
      if fields.Some? && IsKind(e.record, fields.value) && ours then SealedHere else Unknown
    case None =>
      match C.Parse(op.payload)
      case Some(Map(entries)) => if FirstIsText(entries) then BareRecord else Unknown
      case _ => Unknown
  }

  /** The first field numbered 1 is text. */
  predicate FirstIsText(entries: seq<C.Entry>) {
    exists i | 0 <= i < |entries| ::
      entries[i].key == 1 && entries[i].value.Text? && forall j | 0 <= j < i :: entries[j].key != 1
  }

  // An ingest.

  /** 64 lower-case hex digits. */
  predicate IsNodeId(text: string) {
    |text| == 64 && forall i | 0 <= i < |text| :: '0' <= text[i] <= '9' || 'a' <= text[i] <= 'f'
  }

  /** Whether a signature by the node an op names as origin covers the op, its record as payload. */
  type Signs = (Op, seq<byte>) -> bool

  /** The first rule of an ingest that the op breaks, or acceptance. */
  function Verify(op: Op, signs: Signs): Verdict {
    match Open(op.payload)
    case None => Refused(Unsigned)
    case Some(e) =>
      if !(op.share == HOME && op.key == [] && op.shape == Log) || op.refs != [] then Refused(Form)
      else if op.no < 0 || op.prev.Some? != (op.no > 0) then Refused(Prev)
      else if KindOf(op.gladeId).None? then Refused(Stream)
      else if !IsKind(e.record, KindOf(op.gladeId).value) then Refused(Kind)
      else if !IsNodeId(op.origin) then Refused(Origin)
      else if !signs(op.(payload := e.record), e.sig) then Refused(Signature)
      else if op.gladeId == G_CHECKPOINTS && !ChecksOut(op) then Refused(Checkpoint)
      else Accepted
  }

  // The laws.

  lemma EnvelopeFits(e: Envelope)
    requires |e.record| < C.TWO_64 && |e.sig| == SIG
    ensures C.Fits(EnvelopeMap(e), C.DEPTH) && C.Parse(Sealed(e)) == Some(EnvelopeMap(e))
  {
    hide C.Parse, C.Encode;
    CborLaws.ParseInverts(EnvelopeMap(e));
  }

  /** A payload opens to an envelope exactly when it is that envelope's one encoding. */
  lemma OpensOnlySealed(payload: seq<byte>, e: Envelope)
    ensures Open(payload) == Some(e) <==> payload == Sealed(e) && |e.record| < C.TWO_64 && |e.sig| == SIG
  {
    hide C.Parse, C.Encode;
    if payload == Sealed(e) && |e.record| < C.TWO_64 && |e.sig| == SIG {
      EnvelopeFits(e);
    }
    if Open(payload) == Some(e) {
      CborLaws.EncodingIsShortest(payload);
      var fields := C.Parse(payload).value.entries;
      assert fields == EnvelopeMap(e).entries;
      assert C.Fits(fields[0].value, 1);
    }
  }

  /** Bytes are a record of a kind exactly when they are the one encoding of a map of that kind's
      fields. */
  lemma KindIsOneEncoding(record: seq<byte>, fields: seq<Field>)
    ensures IsKind(record, fields) <==>
      exists entries: seq<C.Entry> :: Typed(entries, fields) && C.Fits(C.Map(entries), C.DEPTH) && record == C.Encode(C.Map(entries))
  {
    hide C.Parse, C.Encode, C.Fits;
    if IsKind(record, fields) {
      CborLaws.EncodingIsShortest(record);
      var entries := C.Parse(record).value.entries;
      assert Typed(entries, fields) && C.Fits(C.Map(entries), C.DEPTH) && record == C.Encode(C.Map(entries));
    }
    if entries: seq<C.Entry> :| Typed(entries, fields) && C.Fits(C.Map(entries), C.DEPTH) && record == C.Encode(C.Map(entries)) {
      CborLaws.ParseInverts(C.Map(entries));
    }
  }

  /** Every kind's first field is text, so no bare record of any kind opens as an envelope, and each
      is told for what it is. */
  lemma BareRecordsStayBare(op: Op, gladeId: string)
    requires KindOf(gladeId).Some? && IsKind(op.payload, KindOf(gladeId).value)
    ensures Open(op.payload) == None && FormatOf(op) == BareRecord && RecordBytes(op.payload) == op.payload
  {
    hide C.Parse, C.Encode;
    var fields, entries := KindOf(gladeId).value, C.Parse(op.payload).value.entries;
    assert fields[0] == TextField && entries[0].key == 1 && entries[0].value.Text?;
    assert FirstIsText(entries);
  }

  /** An op an ingest accepts is read from disk as sealed, never as unknown or bare. */
  lemma VerifiedIsSealed(op: Op, signs: Signs)
    requires Verify(op, signs) == Accepted
    ensures FormatOf(op) == SealedHere
  {
    hide Open, IsKind, KindOf, ReadCheckpoint;
  }

  /** An ingest accepts exactly what was sealed: the one envelope of a record of its stream's kind,
      in the directory's form, signed with its chain position. */
  lemma AcceptsExactlySealed(op: Op, signs: Signs)
    ensures Verify(op, signs) == Accepted <==>
      exists e: Envelope :: op.payload == Sealed(e) && |e.record| < C.TWO_64 && |e.sig| == SIG && Takes(op, e, signs)
  {
    hide Sealed, Open, KindOf, IsKind, ReadCheckpoint;
    if Verify(op, signs) == Accepted {
      var e := Open(op.payload).value;
      OpensOnlySealed(op.payload, e);
      assert op.payload == Sealed(e) && Takes(op, e, signs);
    }
    if e: Envelope :| op.payload == Sealed(e) && |e.record| < C.TWO_64 && |e.sig| == SIG && Takes(op, e, signs) {
      OpensOnlySealed(op.payload, e);
    }
  }

  /** What an op carrying `e` must be. */
  ghost predicate Takes(op: Op, e: Envelope, signs: Signs) {
    && op.share == HOME && op.key == [] && op.shape == Log && op.refs == []
    && ((op.no == 0 && op.prev.None?) || (op.no > 0 && op.prev.Some?))
    && KindOf(op.gladeId).Some? && IsKind(e.record, KindOf(op.gladeId).value)
    && IsNodeId(op.origin) && signs(op.(payload := e.record), e.sig)
    && (op.gladeId == G_CHECKPOINTS ==>
         var c := ReadCheckpoint(e.record);
         c.Some? && c.value.node == Encoded(op.origin) && c.value.stream == Encoded(G_CLAIMS) && c.value.no >= 0 && |c.value.hash| == HASH)
  }
}
