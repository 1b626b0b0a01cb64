/** The sign-and-magnitude form of 64-bit integers in receipt encodings. */
module SignedIntegers {
  import opened Results
  import opened Bytes
  import opened Wire

  type i64 = x: int | -0x8000_0000_0000_0000 <= x < 0x8000_0000_0000_0000

  const MAXIMUM: u64 := 0x7fff_ffff_ffff_ffff
  const MINIMUM: i64 := -0x8000_0000_0000_0000

  /** The magnitude, by a route on which no step leaves its 64-bit type. */
  function Magnitude(value: i64): (m: u64)
    ensures m as int == if value < 0 then -(value as int) else value as int
  {
    if value < 0 then
      var next: i64 := value + 1;
      var flipped: i64 := -next;
      flipped + 1
    else value
  }

  function Signed(value: i64): (s: seq<byte>)
    ensures |s| == 9
  {
    Flag(value < 0) + U64(Magnitude(value))
  }

  function SignedValue(negative: bool, magnitude: u64): Result<i64, CodecError> {
    if !negative then
      if magnitude > MAXIMUM then Err(InvalidValue) else Ok(magnitude)
    else if magnitude > MAXIMUM + 1 then Err(InvalidValue)
    else if magnitude == MAXIMUM + 1 then Ok(MINIMUM)
    else
      var positive: i64 := magnitude;
      Ok(-positive)
  }

  function TakeSigned(b: seq<byte>): Taken<i64> {
    var sign :- TakeFlag(b);
    var magnitude :- TakeU64(sign.1);
    var value :- SignedValue(sign.0, magnitude.0);
    Ok((value, magnitude.1))
  }

  method AppendI64(output: Writer, value: i64) returns (r: Result<(), CodecError>)
    requires output.Valid()
    modifies output
    ensures output.Wrote(r, Signed(value))
  {
    var _ :- output.AppendFlag(value < 0);
    var _ :- output.AppendU64(Magnitude(value));
    Regrouped(old(output.bytes), Signed(value));
    return Ok(());
  }

  method ReadI64(input: Reader) returns (r: Result<i64, CodecError>)
    requires input.Valid()
    modifies input
    ensures input.Read(r, TakeSigned(old(input.Rest())))
  {
    var negative :- input.ReadFlag();
    var magnitude :- input.ReadU64();
    r := SignedValue(negative, magnitude);
  }

  /** Every integer, the minimum included, is read back from its form, and
      from no other bytes except that a negative zero also reads as zero. */
  lemma SignedExact(b: seq<byte>, value: i64, rest: seq<byte>)
    ensures TakeSigned(b) == Ok((value, rest)) <==>
      b == Signed(value) + rest || (value == 0 && b == (Flag(true) + U64(0)) + rest)
  {
    SignExact(b, value < 0, Magnitude(value), rest);
    SignExact(b, true, 0, rest);
    var t := TakeFlag(b);
    if t.Ok? {
      var m := TakeU64(t.value.1);
      if m.Ok? {
        SignExact(b, t.value.0, m.value.0, m.value.1);
      }
    }
  }

  lemma SignExact(b: seq<byte>, negative: bool, magnitude: u64, rest: seq<byte>)
    ensures b == (Flag(negative) + U64(magnitude)) + rest <==>
      TakeFlag(b) == Ok((negative, U64(magnitude) + rest))
    ensures b == (Flag(negative) + U64(magnitude)) + rest <==>
      exists after :: TakeFlag(b) == Ok((negative, after)) && TakeU64(after) == Ok((magnitude, rest))
  {
    var after := U64(magnitude) + rest;
    assert (Flag(negative) + U64(magnitude)) + rest == Flag(negative) + after;
    FlagExact(b, negative, after);
    U64Exact(after, magnitude, rest);
    forall a | TakeFlag(b) == Ok((negative, a)) && TakeU64(a) == Ok((magnitude, rest)) ensures a == after {
      U64Exact(a, magnitude, rest);
    }
  }
}
