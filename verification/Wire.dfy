/** The byte buffers of the journal transport codec: a writer with a size
    ceiling, a reader that never passes the end, and the functions that say
    what reading yields.

    Each `Take` function answers the value at the front of some bytes and the
    bytes after it, or why there is none.
 */
module Wire {
  import opened Wrappers
  import opened Results
  import opened Bytes
  import IdentityText

  datatype CodecError =
    | InvalidMagic
    | UnsupportedFormat
    | Truncated
    | InvalidValue
    | LimitExceeded
    | TrailingData
    | IdentityMismatch

  type Taken<+T> = Result<(T, seq<byte>), CodecError>

  const LIMIT: nat := 256 * 1024 * 1024
  const MAXIMUM_DIGEST_TEXT: nat := 128
  const MAGIC_SIZE: nat := 8

  type Magic = m: seq<byte> | |m| == MAGIC_SIZE witness seq(MAGIC_SIZE, _ => 0)

  // What is written

  function Identity(digest: Digest): (s: seq<byte>)
    ensures |s| == 8 + IdentityText.TEXT_SIZE
  {
    Text(IdentityText.Print(digest))
  }

  function Optional(digest: Option<Digest>): (s: seq<byte>)
    ensures |s| <= 9 + IdentityText.TEXT_SIZE
  {
    match digest
    case None => Flag(false)
    case Some(d) => Flag(true) + Identity(d)
  }

  function Identities(digests: seq<Digest>): seq<byte> {
    if digests == [] then [] else Identity(digests[0]) + Identities(digests[1..])
  }

  // What is read

  function TakeByte(b: seq<byte>): Taken<byte> {
    if b == [] then Err(Truncated) else Ok((b[0], b[1..]))
  }

  function TakeU16(b: seq<byte>): Taken<u16> {
    if |b| < 2 then Err(Truncated)
    else
      BigEndianOfNumber(b[..2]);
      Powers();
      Ok((Number(b[..2]), b[2..]))
  }

  function TakeU64(b: seq<byte>): Taken<u64> {
    if |b| < 8 then Err(Truncated)
    else
      BigEndianOfNumber(b[..8]);
      Powers();
      Ok((Number(b[..8]), b[8..]))
  }

  function TakeFlag(b: seq<byte>): Taken<bool> {
    var t :- TakeByte(b);
    if t.0 > 1 then Err(InvalidValue) else Ok((t.0 == 1, t.1))
  }

  function TakeText(b: seq<byte>, maximum: nat): Taken<Buffer> {
    var t :- TakeU64(b);
    if t.0 > maximum then Err(LimitExceeded)
    else if |t.1| < t.0 then Err(Truncated)
    else Ok((t.1[..t.0], t.1[t.0..]))
  }

  function TakeIdentity(b: seq<byte>): Taken<Digest> {
    var t :- TakeText(b, MAXIMUM_DIGEST_TEXT);
    match IdentityText.Parsed(t.0)
    case Ok(digest) => Ok((digest, t.1))
    case Err(_) => Err(InvalidValue)
  }

  function TakeOptional(b: seq<byte>): Taken<Option<Digest>> {
    var flag :- TakeFlag(b);
    if !flag.0 then Ok((None, flag.1))
    else
      var t :- TakeIdentity(flag.1);
      Ok((Some(t.0), t.1))
  }

  function TakeIdentities(b: seq<byte>, count: nat): Taken<seq<Digest>> {
    if count == 0 then Ok(([], b))
    else
      var t :- TakeIdentity(b);
      var r :- TakeIdentities(t.1, count - 1);
      Ok(([t.0] + r.0, r.1))
  }

  function TakeMagic(b: seq<byte>, magic: Magic): Taken<()> {
    if |b| < MAGIC_SIZE then Err(Truncated)
    else if b[..MAGIC_SIZE] != magic then Err(InvalidMagic)
    else Ok(((), b[MAGIC_SIZE..]))
  }

  function TakeVersion(b: seq<byte>, version: u16): Taken<()> {
    var t :- TakeU16(b);
    if t.0 != version then Err(UnsupportedFormat) else Ok(((), t.1))
  }

  // Reading yields a value exactly when that value was written there

  lemma U16Exact(b: seq<byte>, v: u16, rest: seq<byte>)
    ensures TakeU16(b) == Ok((v, rest)) <==> b == U16(v) + rest
  {
    Powers();
    NumberOfBigEndian(v, 2);
    if |b| >= 2 {
      BigEndianOfNumber(b[..2]);
      assert b == b[..2] + b[2..];
    }
    if b == U16(v) + rest {
      assert b[..2] == U16(v) && b[2..] == rest;
    }
  }

  lemma U64Exact(b: seq<byte>, v: u64, rest: seq<byte>)
    ensures TakeU64(b) == Ok((v, rest)) <==> b == U64(v) + rest
  {
    Powers();
    NumberOfBigEndian(v, 8);
    if |b| >= 8 {
      BigEndianOfNumber(b[..8]);
      assert b == b[..8] + b[8..];
    }
    if b == U64(v) + rest {
      assert b[..8] == U64(v) && b[8..] == rest;
    }
  }

  lemma ByteExact(b: seq<byte>, v: byte, rest: seq<byte>)
    ensures TakeByte(b) == Ok((v, rest)) <==> b == [v] + rest
  {
    if b != [] {
      assert b == [b[0]] + b[1..];
    }
    if b == [v] + rest {
      assert b[1..] == rest;
    }
  }

  lemma FlagExact(b: seq<byte>, v: bool, rest: seq<byte>)
    ensures TakeFlag(b) == Ok((v, rest)) <==> b == Flag(v) + rest
  {
    ByteExact(b, if v then 1 else 0, rest);
  }

  lemma TextExact(b: seq<byte>, maximum: nat, v: Buffer, rest: seq<byte>)
    ensures TakeText(b, maximum) == Ok((v, rest)) <==> b == Text(v) + rest && |v| <= maximum
  {
    assert Text(v) + rest == U64(|v|) + (v + rest);
    U64Exact(b, |v|, v + rest);
    var t := TakeU64(b);
    if t.Ok? {
      var (n, after) := t.value;
      U64Exact(b, n, after);
      if n <= |after| {
        assert after == after[..n] + after[n..];
      }
    }
    if b == Text(v) + rest {
      assert (v + rest)[..|v|] == v && (v + rest)[|v|..] == rest;
    }
  }

  lemma IdentityExact(b: seq<byte>, v: Digest, rest: seq<byte>)
    ensures TakeIdentity(b) == Ok((v, rest)) <==> b == Identity(v) + rest
  {
    TextExact(b, MAXIMUM_DIGEST_TEXT, IdentityText.Print(v), rest);
    IdentityText.ParsesItsTextOnly(IdentityText.Print(v), v);
    var t := TakeText(b, MAXIMUM_DIGEST_TEXT);
    if t.Ok? {
      IdentityText.ParsesItsTextOnly(t.value.0, v);
    }
  }

  lemma OptionalExact(b: seq<byte>, v: Option<Digest>, rest: seq<byte>)
    ensures TakeOptional(b) == Ok((v, rest)) <==> b == Optional(v) + rest
  {
    match v
    case None =>
      FlagExact(b, false, rest);
    case Some(d) =>
      assert Optional(v) + rest == Flag(true) + (Identity(d) + rest);
      FlagExact(b, true, Identity(d) + rest);
      var t := TakeFlag(b);
      if t.Ok? {
        FlagExact(b, t.value.0, t.value.1);
        IdentityExact(t.value.1, d, rest);
      }
  }

  lemma {:induction false} IdentitiesTaken(v: seq<Digest>, rest: seq<byte>)
    ensures TakeIdentities(Identities(v) + rest, |v|) == Ok((v, rest))
  {
    hide TakeIdentity, Identity;
    if v == [] {
      assert Identities(v) + rest == rest;
    } else {
      var more := Identities(v[1..]) + rest;
      assert Identities(v) + rest == Identity(v[0]) + more;
      IdentityExact(Identities(v) + rest, v[0], more);
      IdentitiesTaken(v[1..], rest);
      assert v == [v[0]] + v[1..];
    }
  }

  lemma {:induction false} IdentitiesRead(b: seq<byte>, count: nat)
    requires TakeIdentities(b, count).Ok?
    ensures |TakeIdentities(b, count).value.0| == count
    ensures b == Identities(TakeIdentities(b, count).value.0) + TakeIdentities(b, count).value.1
    decreases count
  {
    hide TakeIdentity, Identity;
    if count > 0 {
      var (d, after) := TakeIdentity(b).value;
      IdentityExact(b, d, after);
      IdentitiesRead(after, count - 1);
      var (more, rest) := TakeIdentities(after, count - 1).value;
      IdentitiesPrepended(d, more, rest);
    }
  }

  lemma IdentitiesPrepended(d: Digest, more: seq<Digest>, rest: seq<byte>)
    ensures Identities([d] + more) + rest == Identity(d) + (Identities(more) + rest)
  {
    assert ([d] + more)[1..] == more;
    var s, t := Identity(d), Identities(more);
    assert Identities([d] + more) == s + t;
    assert (s + t) + rest == s + (t + rest);
  }

  lemma MagicExact(b: seq<byte>, magic: Magic, rest: seq<byte>)
    ensures TakeMagic(b, magic) == Ok(((), rest)) <==> b == magic + rest
  {
    if |b| >= MAGIC_SIZE {
      assert b == b[..MAGIC_SIZE] + b[MAGIC_SIZE..];
    }
    if b == magic + rest {
      assert b[..MAGIC_SIZE] == magic && b[MAGIC_SIZE..] == rest;
    }
  }

  lemma VersionExact(b: seq<byte>, version: u16, rest: seq<byte>)
    ensures TakeVersion(b, version) == Ok(((), rest)) <==> b == U16(version) + rest
  {
    U16Exact(b, version, rest);
  }

  // The buffers

  class Writer {
    var bytes: seq<byte>

    predicate Valid()
      reads this
    {
      |bytes| <= LIMIT
    }

    /** Appending `s` succeeds exactly when it fits. */
    twostate predicate Wrote(new r: Result<(), CodecError>, s: seq<byte>)
      reads this
    {
      && Valid()
      && (r.Ok? <==> |old(bytes)| + |s| <= LIMIT)
      && (r.Err? ==> r.error == LimitExceeded)
      && (r.Ok? ==>
            && bytes == old(bytes) + s
            && forall rest: seq<byte> {:trigger s + rest} :: old(bytes) + (s + rest) == bytes + rest)
    }

    constructor ()
      ensures Valid() && bytes == []
    {
      bytes := [];
    }

    method AppendU8(value: byte) returns (r: Result<(), CodecError>)
      requires Valid()
      modifies this
      ensures Wrote(r, [value])
    {
      if |bytes| + 1 > LIMIT {
        return Err(LimitExceeded);
      }
      bytes := bytes + [value];
      Regrouped(old(bytes), [value]);
      return Ok(());
    }

    method AppendU16(value: u16) returns (r: Result<(), CodecError>)
      requires Valid()
      modifies this
      ensures Wrote(r, U16(value))
    {
      var _ :- AppendU8(value / 256 % 256);
      var _ :- AppendU8(value % 256);
      assert U16(value) == [value / 256 % 256] + [value % 256] by {
        assert BigEndian(value, 2) == BigEndian(value / 256, 1) + [value % 256];
        assert BigEndian(value / 256, 1) == BigEndian(value / 256 / 256, 0) + [value / 256 % 256];
      }
      Regrouped(old(bytes), U16(value));
      return Ok(());
    }

    method AppendU64(value: u64) returns (r: Result<(), CodecError>)
      requires Valid()
      modifies this
      ensures Wrote(r, U64(value))
    {
      var shift := 8;
      while shift > 0
        invariant 0 <= shift <= 8 && Valid()
        invariant bytes == old(bytes) + BigEndian(Shifted(value, shift), 8 - shift)
      {
        shift := shift - 1;
        EmitByte(value, shift, 7 - shift);
        var _ :- AppendU8(Shifted(value, shift) % 256);
      }
      Regrouped(old(bytes), U64(value));
      return Ok(());
    }

    method AppendBytes(value: seq<byte>) returns (r: Result<(), CodecError>)
      requires Valid()
      modifies this
      ensures Wrote(r, value)
    {
      Regrouped(bytes, value);
      if value == [] {
        assert bytes == bytes + value;
        return Ok(());
      }
      if |bytes| + |value| > LIMIT {
        return Err(LimitExceeded);
      }
      bytes := bytes + value;
      return Ok(());
    }

    method AppendText(value: Buffer) returns (r: Result<(), CodecError>)
      requires Valid()
      modifies this
      ensures Wrote(r, Text(value))
    {
      var _ :- AppendU64(|value|);
      var _ :- AppendBytes(value);
      Regrouped(old(bytes), Text(value));
      return Ok(());
    }

    method AppendBlob(value: Buffer) returns (r: Result<(), CodecError>)
      requires Valid()
      modifies this
      ensures Wrote(r, Text(value))
    {
      var _ :- AppendU64(|value|);
      if |bytes| + |value| > LIMIT {
        return Err(LimitExceeded);
      }
      var index := 0;
      while index < |value|
        invariant 0 <= index <= |value|
        invariant bytes == old(bytes) + (U64(|value|) + value[..index])
      {
        bytes := bytes + [value[index]];
        index := index + 1;
        assert value[..index] == value[..index - 1] + [value[index - 1]];
      }
      assert value[..index] == value;
      Regrouped(old(bytes), Text(value));
      return Ok(());
    }

    method AppendIdentity(value: Digest) returns (r: Result<(), CodecError>)
      requires Valid()
      modifies this
      ensures Wrote(r, Identity(value))
    {
      var text := IdentityText.FromSha256(value);
      r := AppendText(text);
    }

    method AppendFlag(value: bool) returns (r: Result<(), CodecError>)
      requires Valid()
      modifies this
      ensures Wrote(r, Flag(value))
    {
      r := AppendU8(if value then 1 else 0);
    }

    method AppendOptional(value: Option<Digest>) returns (r: Result<(), CodecError>)
      requires Valid()
      modifies this
      ensures Wrote(r, Optional(value))
    {
      var _ :- AppendFlag(value.Some?);
      if value.Some? {
        var _ :- AppendIdentity(value.value);
      }
      Regrouped(old(bytes), Optional(value));
      return Ok(());
    }

    method AppendIdentities(values: seq<Digest>) returns (r: Result<(), CodecError>)
      requires Valid()
      modifies this
      ensures Wrote(r, Identities(values))
    {
      var index := 0;
      assert values[0..] == values;
      while index < |values|
        invariant 0 <= index <= |values| && Valid()
        invariant bytes + Identities(values[index..]) == old(bytes) + Identities(values)
      {
        assert values[index..][1..] == values[index + 1..];
        assert Identity(values[index]) + Identities(values[index + 1..]) == Identities(values[index..]);
        var _ :- AppendIdentity(values[index]);
        index := index + 1;
      }
      assert bytes == bytes + Identities(values[index..]);
      Regrouped(old(bytes), Identities(values));
      return Ok(());
    }
  }

  class Reader {
    const data: seq<byte>
    var offset: nat

    predicate Valid()
      reads this
    {
      offset <= |data|
    }

    function Rest(): seq<byte>
      requires Valid()
      reads this
    {
      data[offset..]
    }

    /** The outcome is the one the function gives for what was left to read. */
    twostate predicate Read<T>(new r: Result<T, CodecError>, new taken: Taken<T>)
      requires old(Valid())
      reads this
    {
      && Valid()
      && match taken
         case Ok(t) => r == Ok(t.0) && Rest() == t.1
         case Err(e) => r == Err(e)
    }

    constructor (data: seq<byte>)
      ensures Valid() && this.data == data && Rest() == data
    {
      this.data := data;
      this.offset := 0;
    }

    method ReadU8() returns (r: Result<byte, CodecError>)
      requires Valid()
      modifies this
      ensures Read(r, TakeByte(old(Rest())))
    {
      if |data| - offset < 1 {
        return Err(Truncated);
      }
      offset := offset + 1;
      return Ok(data[offset - 1]);
    }

    method ReadU16() returns (r: Result<u16, CodecError>)
      requires Valid()
      modifies this
      ensures Read(r, TakeU16(old(Rest())))
    {
      var high :- ReadU8();
      var low :- ReadU8();
      ghost var s := old(Rest())[..2];
      assert s[..1] == [high] && s[1] == low;
      assert Number([high]) == Number([]) * 256 + high;
      return Ok(high as int * 256 + low);
    }

    method ReadU64() returns (r: Result<u64, CodecError>)
      requires Valid()
      modifies this
      ensures Read(r, TakeU64(old(Rest())))
    {
      ghost var start := offset;
      var value: nat := 0;
      var index := 0;
      while index < 8
        invariant 0 <= index <= 8 && Valid() && offset == start + index
        invariant value == Number(data[start..offset])
      {
        ghost var before, seen := Rest(), data[start..offset];
        var next :- ReadU8();
        assert |Rest()| == |before| - 1 && next == before[0];
        assert offset == start + index + 1;
        assert before == data[start + index..] && next == data[start + index];
        ghost var s := data[start..offset];
        assert s == data[start..start + index] + [data[start + index]];
        assert s[..index] == seen;
        value := value * 256 + next as int;
        index := index + 1;
      }
      BigEndianOfNumber(data[start..offset]);
      Powers();
      assert old(Rest())[..8] == data[start..offset];
      return Ok(value);
    }

    method ReadFlag() returns (r: Result<bool, CodecError>)
      requires Valid()
      modifies this
      ensures Read(r, TakeFlag(old(Rest())))
    {
      var value :- ReadU8();
      return if value > 1 then Err(InvalidValue) else Ok(value == 1);
    }

    method ReadText(maximum: nat) returns (r: Result<Buffer, CodecError>)
      requires Valid()
      modifies this
      ensures Read(r, TakeText(old(Rest()), maximum))
    {
      var size :- ReadU64();
      if size > maximum {
        return Err(LimitExceeded);
      }
      if |data| - offset < size {
        return Err(Truncated);
      }
      ghost var rest := Rest();
      offset := offset + size;
      assert rest[..size] == data[offset - size..offset] && rest[size..] == Rest();
      return Ok(data[offset - size..offset]);
    }

    method ReadBlob() returns (r: Result<Buffer, CodecError>)
      requires Valid()
      modifies this
      ensures Read(r, TakeText(old(Rest()), LIMIT))
    {
      var size :- ReadU64();
      if size > LIMIT {
        return Err(LimitExceeded);
      }
      if |data| - offset < size {
        return Err(Truncated);
      }
      var value := [];
      var index := 0;
      while index < size
        invariant 0 <= index <= size
        invariant value == data[offset..offset + index]
      {
        value := value + [data[offset + index]];
        index := index + 1;
      }
      ghost var rest := Rest();
      offset := offset + size;
      assert rest[..size] == value && rest[size..] == Rest();
      return Ok(value);
    }

    method ReadIdentity() returns (r: Result<Digest, CodecError>)
      requires Valid()
      modifies this
      ensures Read(r, TakeIdentity(old(Rest())))
    {
      var text :- ReadText(MAXIMUM_DIGEST_TEXT);
      var parsed := IdentityText.Parse(text);
      return if parsed.Ok? then Ok(parsed.value) else Err(InvalidValue);
    }

    method ReadOptional() returns (r: Result<Option<Digest>, CodecError>)
      requires Valid()
      modifies this
      ensures Read(r, TakeOptional(old(Rest())))
    {
      var present :- ReadFlag();
      if !present {
        return Ok(None);
      }
      var digest :- ReadIdentity();
      return Ok(Some(digest));
    }

    method ExpectMagic(magic: Magic) returns (r: Result<(), CodecError>)
      requires Valid()
      modifies this
      ensures Read(r, TakeMagic(old(Rest()), magic))
    {
      if |data| - offset < MAGIC_SIZE {
        return Err(Truncated);
      }
      if data[offset..offset + MAGIC_SIZE] != magic {
        return Err(InvalidMagic);
      }
      offset := offset + MAGIC_SIZE;
      return Ok(());
    }

    method ExpectVersion(version: u16) returns (r: Result<(), CodecError>)
      requires Valid()
      modifies this
      ensures Read(r, TakeVersion(old(Rest()), version))
    {
      var found :- ReadU16();
      return if found != version then Err(UnsupportedFormat) else Ok(());
    }
  }
}
