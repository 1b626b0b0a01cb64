/** Identities as text: "v1:sha256:" and the digest in lowercase hexadecimal. */
module IdentityText {
  import opened Results
  import opened Bytes

  datatype DigestError =
    | MalformedRepresentation
    | UnsupportedVersion
    | UnsupportedAlgorithm
    | InvalidLength
    | InvalidHexadecimal

  const COLON: byte := 58
  const VERSION: seq<byte> := [118, 49] // v1
  const ALGORITHM: seq<byte> := [115, 104, 97, 50, 53, 54] // sha256
  const PREFIX: seq<byte> := VERSION + [COLON] + ALGORITHM + [COLON]
  const TEXT_SIZE: nat := |PREFIX| + 2 * DIGEST_SIZE

  function HexDigit(value: nat): byte
    requires value < 16
  {
    if value < 10 then 48 + value else 87 + value
  }

  function HexValue(c: byte): (r: Result<nat, DigestError>)
    ensures r.Ok? ==> r.value < 16 && HexDigit(r.value) == c
    ensures r.Err? ==> r.error.InvalidHexadecimal? && forall v :: 0 <= v < 16 ==> HexDigit(v) != c
  {
    if 48 <= c <= 57 then Ok(c - 48)
    else if 97 <= c <= 102 then Ok(c - 87)
    else Err(InvalidHexadecimal)
  }

  function HexPair(value: byte): (s: seq<byte>)
    ensures |s| == 2
  {
    [HexDigit(value / 16), HexDigit(value % 16)]
  }

  function Hex(bytes: seq<byte>): (s: seq<byte>)
    ensures |s| == 2 * |bytes|
  {
    if bytes == [] then [] else HexPair(bytes[0]) + Hex(bytes[1..])
  }

  /** The canonical text of an identity. */
  function Print(digest: Digest): (s: seq<byte>)
    ensures |s| == TEXT_SIZE
  {
    PREFIX + Hex(digest)
  }

  /** The position of a byte at or after `from`; the length when there is none. */
  function Find(text: seq<byte>, c: byte, from: nat): (k: nat)
    requires from <= |text|
    ensures from <= k <= |text|
    ensures k < |text| ==> text[k] == c
    ensures forall i :: from <= i < k ==> text[i] != c
    decreases |text| - from
  {
    if from == |text| || text[from] == c then from else Find(text, c, from + 1)
  }

  /** Pairs of hexadecimal digits as bytes; fails on the first bad digit. */
  function Unhex(text: seq<byte>): (r: Result<seq<byte>, DigestError>)
    requires |text| % 2 == 0
    ensures r.Ok? ==> |text| == 2 * |r.value| && Hex(r.value) == text
    ensures r.Err? ==> r.error.InvalidHexadecimal?
  {
    if text == [] then Ok([])
    else
      var high :- HexValue(text[0]);
      var low :- HexValue(text[1]);
      var rest :- Unhex(text[2..]);
      assert text == text[..2] + text[2..];
      var r := [high * 16 + low] + rest;
      assert r[1..] == rest;
      Ok(r)
  }

  /** What the parser answers for every text. */
  function Parsed(text: seq<byte>): Result<Digest, DigestError> {
    var first := Find(text, COLON, 0);
    if first == |text| then Err(MalformedRepresentation)
    else if text[..first] != VERSION then Err(UnsupportedVersion)
    else
      var second := Find(text, COLON, first + 1);
      if second == |text| then Err(MalformedRepresentation)
      else if text[first + 1..second] != ALGORITHM then Err(UnsupportedAlgorithm)
      else if |text| != TEXT_SIZE then Err(InvalidLength)
      else
        var bytes :- Unhex(text[|PREFIX|..]);
        Ok(bytes)
  }

  method FromSha256(digest: Digest) returns (text: seq<byte>)
    ensures text == Print(digest)
  {
    text := PREFIX;
    var i := 0;
    while i < |digest|
      invariant 0 <= i <= |digest|
      invariant text + Hex(digest[i..]) == Print(digest)
    {
      assert digest[i..][1..] == digest[i + 1..];
      text := text + HexPair(digest[i]);
      i := i + 1;
    }
  }

  method FindByte(text: seq<byte>, c: byte, from: nat) returns (k: nat)
    requires from <= |text|
    ensures k == Find(text, c, from)
  {
    k := from;
    while k < |text| && text[k] != c
      invariant from <= k <= |text|
      invariant Find(text, c, from) == Find(text, c, k)
    {
      k := k + 1;
    }
  }

  /** The whole of `text` once the digits before `i` have given `done`. */
  function Continued(done: seq<byte>, text: seq<byte>, i: nat): Result<seq<byte>, DigestError>
    requires 2 * i <= |text| && |text| % 2 == 0
  {
    match Unhex(text[2 * i..])
    case Ok(rest) => Ok(done + rest)
    case Err(e) => Err(e)
  }

  lemma ContinueStart(text: seq<byte>)
    requires |text| % 2 == 0
    ensures Continued([], text, 0) == Unhex(text)
  {
    assert text[2 * 0..] == text;
    assert Unhex(text).Ok? ==> [] + Unhex(text).value == Unhex(text).value;
  }

  lemma ContinueByte(done: seq<byte>, text: seq<byte>, i: nat, high: nat, low: nat)
    requires 2 * i + 1 < |text| && |text| % 2 == 0
    requires HexValue(text[2 * i]) == Ok(high) && HexValue(text[2 * i + 1]) == Ok(low)
    ensures high < 16 && low < 16
    ensures Continued(done, text, i) == Continued(done + [high * 16 + low], text, i + 1)
  {
    var s := text[2 * i..];
    assert s[2..] == text[2 * (i + 1)..] && s[0] == text[2 * i] && s[1] == text[2 * i + 1];
    var rest := Unhex(s[2..]);
    if rest.Ok? {
      assert done + ([high * 16 + low] + rest.value) == (done + [high * 16 + low]) + rest.value;
    }
  }

  method ParseHex(text: seq<byte>) returns (r: Result<seq<byte>, DigestError>)
    requires |text| % 2 == 0
    ensures r == Unhex(text)
  {
    var bytes: seq<byte> := [];
    var i := 0;
    ContinueStart(text);
    while 2 * i < |text|
      invariant 0 <= 2 * i <= |text|
      invariant Continued(bytes, text, i) == Unhex(text)
    {
      var high :- HexValue(text[2 * i]);
      var low :- HexValue(text[2 * i + 1]);
      ContinueByte(bytes, text, i, high, low);
      bytes := bytes + [high * 16 + low];
      i := i + 1;
    }
    assert bytes + [] == bytes;
    return Ok(bytes);
  }

  method Parse(text: seq<byte>) returns (r: Result<Digest, DigestError>)
    ensures r == Parsed(text)
  {
    var first := FindByte(text, COLON, 0);
    if first == |text| {
      return Err(MalformedRepresentation);
    }
    if text[..first] != VERSION {
      return Err(UnsupportedVersion);
    }
    var second := FindByte(text, COLON, first + 1);
    if second == |text| {
      return Err(MalformedRepresentation);
    }
    if text[first + 1..second] != ALGORITHM {
      return Err(UnsupportedAlgorithm);
    }
    if |text| != TEXT_SIZE {
      return Err(InvalidLength);
    }
    var bytes :- ParseHex(text[|PREFIX|..]);
    return Ok(bytes);
  }

  lemma {:induction false} UnhexOfHex(bytes: seq<byte>)
    ensures Unhex(Hex(bytes)) == Ok(bytes)
  {
    if bytes != [] {
      UnhexOfHex(bytes[1..]);
      var s := Hex(bytes);
      assert s[2..] == Hex(bytes[1..]);
      HexDigitValue(bytes[0] / 16);
      HexDigitValue(bytes[0] % 16);
      assert bytes == [bytes[0]] + bytes[1..];
    }
  }

  lemma HexDigitValue(v: nat)
    requires v < 16
    ensures HexValue(HexDigit(v)) == Ok(v)
  {
  }

  /** Where the separators of a text with the right prefix are. */
  lemma Separators(text: seq<byte>)
    requires PREFIX <= text
    ensures Find(text, COLON, 0) == 2 && text[..2] == VERSION
    ensures Find(text, COLON, 3) == 9 && text[3..9] == ALGORITHM
  {
    assert forall i :: 0 <= i < |PREFIX| ==> text[i] == PREFIX[i];
    assert text[0] != COLON && text[1] != COLON && text[2] == COLON;
    assert forall i :: 3 <= i < 9 ==> text[i] == ALGORITHM[i - 3];
    assert text[9] == COLON;
    assert text[3..9] == ALGORITHM;
  }

  /** A text parses to a digest exactly when it is the text of that digest. */
  lemma ParsesItsTextOnly(text: seq<byte>, digest: Digest)
    ensures Parsed(text) == Ok(digest) <==> text == Print(digest)
  {
    if text == Print(digest) {
      Separators(text);
      assert text[|PREFIX|..] == Hex(digest);
      UnhexOfHex(digest);
    }
    if Parsed(text) == Ok(digest) {
      var first := Find(text, COLON, 0);
      var second := Find(text, COLON, first + 1);
      assert text == text[..first] + [COLON] + text[first + 1..second] + [COLON] + text[second + 1..];
      assert first == 2 && second == 9;
      assert text == PREFIX + text[|PREFIX|..];
    }
  }
}
