/** The binary form of journal cursors, and the tags and frame it shares with
    that of steps.

    A decoded value must reproduce the identity written in front of it.  That
    check is made against an arbitrary digest function: none of the round
    trips depends on the digest being injective.
 */
module TransportCodec {
  import opened Wrappers
  import opened Results
  import opened Bytes
  import opened Wire
  import opened CanonicalRecord
  import Journal

  const CURSOR_MAGIC: Magic := [90, 76, 65, 80, 74, 67, 85, 0]
  const TRANSPORT_VERSION: u16 := 1
  const CURSOR_SCHEMA: u16 := 1

  // Tags

  function StateOf(tag: byte): (s: Option<Journal.State>)
    ensures s.Some? ==> StateTag(s.value) == tag
    ensures s.None? ==> forall state :: StateTag(state) != tag
  {
    if tag == 1 then Some(Journal.Preparing)
    else if tag == 2 then Some(Journal.Prepared)
    else if tag == 3 then Some(Journal.Mutating)
    else if tag == 4 then Some(Journal.EffectsVisible)
    else if tag == 5 then Some(Journal.ResultObserved)
    else if tag == 6 then Some(Journal.ApplicationCompleted)
    else if tag == 7 then Some(Journal.ExternalResolutionPending)
    else if tag == 8 then Some(Journal.Recovering)
    else if tag == 9 then Some(Journal.Recovered)
    else if tag == 10 then Some(Journal.Finalized)
    else if tag == 11 then Some(Journal.Abandoned)
    else if tag == 12 then Some(Journal.StateIndeterminate)
    else if tag == 13 then Some(Journal.RecoveryPending)
    else None
  }

  function KindOf(tag: byte): (k: Option<Journal.EventKind>)
    ensures k.Some? ==> EventTag(k.value) == tag
    ensures k.None? ==> forall kind :: EventTag(kind) != tag
  {
    if tag == 1 then Some(Journal.Intent)
    else if tag == 2 then Some(Journal.EventCompleted)
    else if tag == 3 then Some(Journal.EventFailed)
    else if tag == 4 then Some(Journal.EventIndeterminate)
    else None
  }

  function TakeState(b: seq<byte>): Taken<Journal.State> {
    var t :- TakeByte(b);
    match StateOf(t.0)
    case Some(state) => Ok((state, t.1))
    case None => Err(InvalidValue)
  }

  function TakeKind(b: seq<byte>): Taken<Journal.EventKind> {
    var t :- TakeByte(b);
    match KindOf(t.0)
    case Some(kind) => Ok((kind, t.1))
    case None => Err(InvalidValue)
  }

  lemma StateExact(b: seq<byte>, v: Journal.State, rest: seq<byte>)
    ensures TakeState(b) == Ok((v, rest)) <==> b == [StateTag(v)] + rest
  {
    ByteExact(b, StateTag(v), rest);
    var t := TakeByte(b);
    if t.Ok? {
      ByteExact(b, t.value.0, t.value.1);
    }
  }

  lemma KindExact(b: seq<byte>, v: Journal.EventKind, rest: seq<byte>)
    ensures TakeKind(b) == Ok((v, rest)) <==> b == [EventTag(v)] + rest
  {
    ByteExact(b, EventTag(v), rest);
    var t := TakeByte(b);
    if t.Ok? {
      ByteExact(b, t.value.0, t.value.1);
    }
  }

  method ReadState(input: Reader) returns (r: Result<Journal.State, CodecError>)
    requires input.Valid()
    modifies input
    ensures input.Read(r, TakeState(old(input.Rest())))
  {
    var tag :- input.ReadU8();
    match StateOf(tag)
    case Some(state) => return Ok(state);
    case None => return Err(InvalidValue);
  }

  method ReadKind(input: Reader) returns (r: Result<Journal.EventKind, CodecError>)
    requires input.Valid()
    modifies input
    ensures input.Read(r, TakeKind(old(input.Rest())))
  {
    var tag :- input.ReadU8();
    match KindOf(tag)
    case Some(kind) => return Ok(kind);
    case None => return Err(InvalidValue);
  }

  // Cursors

  /** What the constructors of a cursor guarantee. */
  predicate CursorFormed(cursor: CursorContent) {
    && ((cursor.stepCount == 0) == cursor.latest.None?)
    && (cursor.stepCount == 0 ==> cursor.state.Preparing? && cursor.receipt.None? && cursor.completed.None?)
    && (cursor.completed.Some? ==> cursor.receipt.Some?)
  }

  function CursorFields(cursor: CursorContent): (s: seq<byte>)
    ensures |s| <= 1000
  {
    Identity(cursor.declaration) +
    (U64(cursor.stepCount) +
     (Optional(cursor.latest) +
      Head(cursor)))
  }

  /** What the latest step of a cursor left in it. */
  function Head(cursor: CursorContent): (s: seq<byte>)
    ensures |s| <= 500
  {
    [StateTag(cursor.state)] + (Optional(cursor.receipt) + Optional(cursor.completed))
  }

  function Framed(magic: Magic, schema: u16, identity: Digest, fields: seq<byte>): (s: seq<byte>)
    ensures |s| == 20 + IdentityText.TEXT_SIZE + |fields|
  {
    magic + (U16(TRANSPORT_VERSION) + (U16(schema) + (Identity(identity) + fields)))
  }

  function CursorBytes(hash: Hash, cursor: CursorContent): (s: seq<byte>)
    ensures |s| <= LIMIT
  {
    Framed(CURSOR_MAGIC, CURSOR_SCHEMA, hash(CursorRecord(cursor)), CursorFields(cursor))
  }

  /** The frame of a value and the identity it announces. */
  function TakeFrame(b: seq<byte>, magic: Magic, schema: u16): Taken<Digest> {
    var m :- TakeMagic(b, magic);
    var v :- TakeVersion(m.1, TRANSPORT_VERSION);
    var s :- TakeVersion(v.1, schema);
    TakeIdentity(s.1)
  }

  function TakeCursor(b: seq<byte>): Taken<CursorContent> {
    var declaration :- TakeIdentity(b);
    var count :- TakeU64(declaration.1);
    var latest :- TakeOptional(count.1);
    var state :- TakeState(latest.1);
    var receipt :- TakeOptional(state.1);
    var completed :- TakeOptional(receipt.1);
    Ok((CursorContent(declaration.0, count.0, latest.0, state.0, receipt.0, completed.0), completed.1))
  }

  /** What decoding answers for every byte string. */
  function DecodedCursor(hash: Hash, data: seq<byte>): Result<CursorContent, CodecError> {
    if |data| > LIMIT then Err(LimitExceeded)
    else
      var expected :- TakeFrame(data, CURSOR_MAGIC, CURSOR_SCHEMA);
      var cursor :- TakeCursor(expected.1);
      if cursor.1 != [] then Err(TrailingData)
      else if !CursorFormed(cursor.0) then Err(InvalidValue)
      else if hash(CursorRecord(cursor.0)) != expected.0 then Err(IdentityMismatch)
      else Ok(cursor.0)
  }

  method AppendFrame(output: Writer, magic: Magic, schema: u16, identity: Digest) returns (r: Result<(), CodecError>)
    requires output.Valid()
    modifies output
    ensures output.Wrote(r, Framed(magic, schema, identity, []))
  {
    var _ :- output.AppendBytes(magic);
    var _ :- output.AppendU16(TRANSPORT_VERSION);
    var _ :- output.AppendU16(schema);
    var _ :- output.AppendIdentity(identity);
    assert Identity(identity) + [] == Identity(identity);
    Regrouped(old(output.bytes), Framed(magic, schema, identity, []));
    return Ok(());
  }

  lemma FrameFirst(magic: Magic, schema: u16, identity: Digest, fields: seq<byte>)
    ensures Framed(magic, schema, identity, []) + fields == Framed(magic, schema, identity, fields)
  {
    var i := Identity(identity);
    assert i + [] == i;
    assert (U16(schema) + i) + fields == U16(schema) + (i + fields);
    assert (U16(TRANSPORT_VERSION) + (U16(schema) + i)) + fields == U16(TRANSPORT_VERSION) + (U16(schema) + (i + fields));
  }

  method AppendHead(output: Writer, cursor: CursorContent) returns (r: Result<(), CodecError>)
    requires output.Valid()
    modifies output
    ensures output.Wrote(r, Head(cursor))
  {
    var _ :- output.AppendU8(StateTag(cursor.state));
    var _ :- output.AppendOptional(cursor.receipt);
    var _ :- output.AppendOptional(cursor.completed);
    Regrouped(old(output.bytes), Head(cursor));
    return Ok(());
  }

  method AppendCursor(output: Writer, cursor: CursorContent) returns (r: Result<(), CodecError>)
    requires output.Valid()
    modifies output
    ensures output.Wrote(r, CursorFields(cursor))
  {
    var _ :- output.AppendIdentity(cursor.declaration);
    var _ :- output.AppendU64(cursor.stepCount);
    var _ :- output.AppendOptional(cursor.latest);
    var _ :- AppendHead(output, cursor);
    Regrouped(old(output.bytes), CursorFields(cursor));
    return Ok(());
  }

  /** Encoding a cursor never meets the size ceiling. */
  method EncodeCursor(hash: Hash, cursor: CursorContent) returns (r: Result<seq<byte>, CodecError>)
    ensures r == Ok(CursorBytes(hash, cursor))
  {
    var output := new Writer();
    var identity := IdentifyCursor(hash, cursor);
    ghost var frame := Framed(CURSOR_MAGIC, CURSOR_SCHEMA, identity, []);
    FrameFirst(CURSOR_MAGIC, CURSOR_SCHEMA, identity, CursorFields(cursor));
    var framed := AppendFrame(output, CURSOR_MAGIC, CURSOR_SCHEMA, identity);
    assert framed.Ok? && output.bytes == frame;
    var appended := AppendCursor(output, cursor);
    assert appended.Ok?;
    return Ok(output.bytes);
  }

  method ReadFrame(input: Reader, magic: Magic, schema: u16) returns (r: Result<Digest, CodecError>)
    requires input.Valid()
    modifies input
    ensures input.Read(r, TakeFrame(old(input.Rest()), magic, schema))
  {
    var _ :- input.ExpectMagic(magic);
    var _ :- input.ExpectVersion(TRANSPORT_VERSION);
    var _ :- input.ExpectVersion(schema);
    r := input.ReadIdentity();
  }

  method ReadCursor(input: Reader) returns (r: Result<CursorContent, CodecError>)
    requires input.Valid()
    modifies input
    ensures input.Read(r, TakeCursor(old(input.Rest())))
  {
    var declaration :- input.ReadIdentity();
    var count :- input.ReadU64();
    var latest :- input.ReadOptional();
    var state :- ReadState(input);
    var receipt :- input.ReadOptional();
    var completed :- input.ReadOptional();
    return Ok(CursorContent(declaration, count, latest, state, receipt, completed));
  }

  /** The last checks of a decoder: the cursor is well formed and is the one
      that its frame names. */
  method AcceptCursor(hash: Hash, expected: Digest, cursor: CursorContent) returns (r: Result<CursorContent, CodecError>)
    ensures r == if !CursorFormed(cursor) then Err(InvalidValue)
                 else if hash(CursorRecord(cursor)) != expected then Err(IdentityMismatch)
                 else Ok(cursor)
  {
    if !CursorFormed(cursor) {
      return Err(InvalidValue);
    }
    var identity := IdentifyCursor(hash, cursor);
    return if identity != expected then Err(IdentityMismatch) else Ok(cursor);
  }

  method DecodeCursor(hash: Hash, data: seq<byte>) returns (r: Result<CursorContent, CodecError>)
    ensures r == DecodedCursor(hash, data)
  {
    if |data| > LIMIT {
      return Err(LimitExceeded);
    }
    var input := new Reader(data);
    var expected :- ReadFrame(input, CURSOR_MAGIC, CURSOR_SCHEMA);
    var cursor :- ReadCursor(input);
    if input.offset != |data| {
      assert input.Rest() != [];
      return Err(TrailingData);
    }
    assert input.Rest() == [];
    r := AcceptCursor(hash, expected, cursor);
  }

  lemma FrameExact(b: seq<byte>, magic: Magic, schema: u16, identity: Digest, rest: seq<byte>)
    ensures TakeFrame(b, magic, schema) == Ok((identity, rest)) <==> b == Framed(magic, schema, identity, rest)
  {
    var i := Identity(identity) + rest;
    var s := U16(schema) + i;
    var v := U16(TRANSPORT_VERSION) + s;
    MagicExact(b, magic, v);
    VersionExact(v, TRANSPORT_VERSION, s);
    VersionExact(s, schema, i);
    IdentityExact(i, identity, rest);
    if TakeFrame(b, magic, schema) == Ok((identity, rest)) {
      var m := TakeMagic(b, magic).value.1;
      var w := TakeVersion(m, TRANSPORT_VERSION).value.1;
      var x := TakeVersion(w, schema).value.1;
      MagicExact(b, magic, m);
      VersionExact(m, TRANSPORT_VERSION, w);
      VersionExact(w, schema, x);
      IdentityExact(x, identity, rest);
    }
  }

  lemma CursorTaken(v: CursorContent)
    ensures TakeCursor(CursorFields(v)) == Ok((v, []))
  {
    var b6 := Optional(v.completed);
    var b5 := Optional(v.receipt) + b6;
    var b4 := [StateTag(v.state)] + b5;
    var b3 := Optional(v.latest) + b4;
    var b2 := U64(v.stepCount) + b3;
    IdentityExact(CursorFields(v), v.declaration, b2);
    U64Exact(b2, v.stepCount, b3);
    OptionalExact(b3, v.latest, b4);
    StateExact(b4, v.state, b5);
    OptionalExact(b5, v.receipt, b6);
    assert b6 == b6 + [];
    OptionalExact(b6, v.completed, []);
  }

  lemma CursorRead(b: seq<byte>, v: CursorContent)
    requires TakeCursor(b) == Ok((v, []))
    ensures b == CursorFields(v)
  {
    var b2 := TakeIdentity(b).value.1;
    var b3 := TakeU64(b2).value.1;
    var b4 := TakeOptional(b3).value.1;
    var b5 := TakeState(b4).value.1;
    var b6 := TakeOptional(b5).value.1;
    IdentityExact(b, v.declaration, b2);
    U64Exact(b2, v.stepCount, b3);
    OptionalExact(b3, v.latest, b4);
    StateExact(b4, v.state, b5);
    OptionalExact(b5, v.receipt, b6);
    OptionalExact(b6, v.completed, []);
    assert b6 == Optional(v.completed) + [] == Optional(v.completed);
  }

  /** Cursor bytes and cursors correspond one to one: bytes decode to a cursor
      exactly when they are its encoding. */
  lemma CursorCodecExact(hash: Hash, data: seq<byte>, cursor: CursorContent)
    ensures DecodedCursor(hash, data) == Ok(cursor) <==> CursorFormed(cursor) && data == CursorBytes(hash, cursor)
  {
    var identity := hash(CursorRecord(cursor));
    FrameExact(data, CURSOR_MAGIC, CURSOR_SCHEMA, identity, CursorFields(cursor));
    if CursorFormed(cursor) && data == CursorBytes(hash, cursor) {
      CursorTaken(cursor);
    }
    if DecodedCursor(hash, data) == Ok(cursor) {
      var fields := TakeFrame(data, CURSOR_MAGIC, CURSOR_SCHEMA).value.1;
      CursorRead(fields, cursor);
    }
  }
}
