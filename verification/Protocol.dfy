/** What travels inside the encrypted channel (core/src/protocol.rs): control frames, binary chunk
    frames, and the text form of transfer ids. */
module Protocol {
  import opened Bytes
  import SecureLink
  import TransferTable

  const KIND_CONTROL: byte := 1
  const KIND_CHUNK: byte := 2

  /** The JSON form of control messages, as far as it matters: what is printed parses back. */
  datatype Json<!C> = Json(text: C -> seq<byte>, parse: seq<byte> -> Option<C>)

  ghost predicate Faithful<C(!new)>(json: Json<C>) { forall c :: json.parse(json.text(c)) == Some(c) }

  datatype Frame<C> = Control(c: C) | Chunk(id: seq<byte>, seqNo: nat, data: seq<byte>)

  datatype Fault = BadJson | Truncated | UnknownKind | Empty

  function EncodedControl<C>(json: Json<C>, c: C): seq<byte> { [KIND_CONTROL] + json.text(c) }

  function EncodedChunk(id: seq<byte>, seqNo: nat, data: seq<byte>): seq<byte> {
    [KIND_CHUNK] + id + ToBytes(seqNo, 4) + data
  }

  /** `encode_chunk`. */
  method EncodeChunk(id: seq<byte>, seqNo: nat, data: seq<byte>) returns (out: seq<byte>)
    requires |id| == 16 && seqNo < U32
    ensures out == EncodedChunk(id, seqNo, data)
    ensures |out| == 21 + |data| && out[0] == 2 && out[1..17] == id && out[21..] == data
    ensures seqNo == Word(out[17], out[18], out[19], out[20])
  {
    out := [KIND_CHUNK];
    out := out + id;
    out := out + ToBytes(seqNo, 4);
    out := out + data;
    Widths();
    NumberRoundTrip(seqNo, 4);
    FourBytes(ToBytes(seqNo, 4));
  }

  /** `decode`. */
  function Decode<C>(json: Json<C>, buf: seq<byte>): Result<Frame<C>, Fault> {
    if buf == [] then Err(Empty)
    else if buf[0] == KIND_CONTROL then
      match json.parse(buf[1..])
      case None => Err(BadJson)
      case Some(c) => Ok(Control(c))
    else if buf[0] == KIND_CHUNK then
      if |buf| < 21 then Err(Truncated) else Ok(Chunk(buf[1..17], FromBytes(buf[17..21]), buf[21..]))
    else Err(UnknownKind)
  }

  /** Chunk frames and control frames decode to what was encoded, and a chunk of a file fits into one
      encrypted message. */
  lemma FrameRoundTrip<C(!new)>(json: Json<C>, c: C, id: seq<byte>, seqNo: nat, data: seq<byte>)
    requires Faithful(json) && |id| == 16 && seqNo < U32
    ensures Decode(json, EncodedControl(json, c)) == Ok(Control(c))
    ensures Decode(json, EncodedChunk(id, seqNo, data)) == Ok(Chunk(id, seqNo, data))
    ensures |data| <= TransferTable.CHUNK_SIZE ==> |EncodedChunk(id, seqNo, data)| <= SecureLink.MAX_PLAINTEXT
  {
    assert EncodedControl(json, c)[1..] == json.text(c);
    var buf := EncodedChunk(id, seqNo, data);
    Widths();
    NumberRoundTrip(seqNo, 4);
    assert buf[1..17] == id && buf[17..21] == ToBytes(seqNo, 4) && buf[21..] == data;
  }

  /** What any frame decodes to, by its first byte and its length. */
  lemma DecodesExactly<C>(json: Json<C>, buf: seq<byte>)
    ensures Decode(json, buf) == Err(Empty) <==> buf == []
    ensures Decode(json, buf) == Err(UnknownKind) <==> buf != [] && buf[0] != 1 && buf[0] != 2
    ensures Decode(json, buf) == Err(BadJson) <==> buf != [] && buf[0] == 1 && json.parse(buf[1..]).None?
    ensures Decode(json, buf) == Err(Truncated) <==> buf != [] && buf[0] == 2 && |buf| <= 20
    ensures buf != [] && buf[0] == 1 && json.parse(buf[1..]).Some? ==> Decode(json, buf) == Ok(Control(json.parse(buf[1..]).value))
    ensures |buf| > 20 && buf[0] == 2 ==>
              Decode(json, buf) == Ok(Chunk(buf[1..17], Word(buf[17], buf[18], buf[19], buf[20]), buf[21..]))
  {
    if |buf| > 20 { FourBytes(buf[17..21]); }
  }

  /** Nothing else decodes to a chunk: the format is one-to-one. */
  lemma ChunkIsEncoded<C>(json: Json<C>, buf: seq<byte>, id: seq<byte>, seqNo: nat, data: seq<byte>)
    requires Decode(json, buf) == Ok(Chunk(id, seqNo, data))
    ensures |id| == 16 && seqNo < U32 && buf == EncodedChunk(id, seqNo, data)
  {
    Widths();
    ToFromBytes(buf[17..21]);
    assert buf == [buf[0]] + buf[1..17] + buf[17..21] + buf[21..];
  }

  // ----- transfer ids as text -----

  predicate IsLowerHex(c: char) { '0' <= c <= '9' || 'a' <= c <= 'f' }

  function HexDigit(n: nat): (c: char)
    requires n < 16
    ensures IsLowerHex(c) && IsHex(c) && HexVal(c) == n
  {
    if n < 10 then '0' + n as char else 'a' + (n - 10) as char
  }

  /** `hex`. */
  function Hex(bytes: seq<byte>): (s: string)
    ensures |s| == 2 * |bytes|
  {
    if bytes == [] then "" else [HexDigit(bytes[0] / 16), HexDigit(bytes[0] % 16)] + Hex(bytes[1..])
  }

  /** `u8::from_str_radix` on two characters: two hex digits of either case, or a plus and one. */
  function Pair(a: char, b: char): Option<byte> {
    if !IsHex(b) then None
    else if a == '+' then Some(HexVal(b))
    else if !IsHex(a) then None
    else Some(16 * HexVal(a) + HexVal(b))
  }

  const LOWER := "0123456789abcdef"
  const UPPER := "0123456789ABCDEF"

  predicate IsDigit(c: char, n: nat)
    requires n < 16
  {
    c == LOWER[n] || c == UPPER[n]
  }

  /** Two digits of either case are read as what they say, a plus and a digit as the digit, and digits are
      printed in lower case. */
  lemma PairReads(a: char, b: char, m: nat, n: nat)
    requires m < 16 && n < 16 && IsDigit(a, m) && IsDigit(b, n)
    ensures Pair(a, b) == Some(16 * m + n) && Pair('+', b) == Some(n) && HexDigit(n) == LOWER[n]
  {
    DigitValue(a, m);
    DigitValue(b, n);
    hide HexVal, IsHex, HexDigit, IsDigit;
  }

  /** Nothing else is read. */
  lemma PairRefuses(a: char, b: char)
    requires Pair(a, b).Some?
    ensures (a == '+' || a in LOWER + UPPER) && b in LOWER + UPPER
  {
    if a != '+' { HexIsDigit(a); }
    HexIsDigit(b);
  }

  lemma DigitValue(c: char, n: nat)
    requires n < 16 && IsDigit(c, n)
    ensures IsHex(c) && HexVal(c) == n && c != '+' && HexDigit(n) == LOWER[n]
  {}

  lemma HexIsDigit(c: char)
    requires IsHex(c)
    ensures c in LOWER + UPPER
  {
    assert IsDigit(c, HexVal(c));
  }

  predicate Parses(s: string, bytes: seq<byte>) {
    |s| == 2 * |bytes| && forall i | 0 <= i < |bytes| :: Pair(s[2 * i], s[2 * i + 1]) == Some(bytes[i])
  }

  lemma ParsedPair(s: string, bytes: seq<byte>, i: nat)
    requires Parses(s, bytes) && i < |bytes|
    ensures Pair(s[2 * i], s[2 * i + 1]) == Some(bytes[i])
  {}

  /** `unhex16`. */
  method Unhex16(s: string) returns (r: Option<seq<byte>>)
    ensures r.Some? ==> |r.value| == 16 && Parses(s, r.value)
    ensures r.None? ==> forall bytes: seq<byte> | |bytes| == 16 :: !Parses(s, bytes)
  {
    if |s| != 32 { return None; }
    var out := new byte[16];
    for i := 0 to 16
      invariant forall j | 0 <= j < i :: Pair(s[2 * j], s[2 * j + 1]) == Some(out[j])
    {
      var n := Pair(s[i * 2], s[i * 2 + 1]);
      if n.None? {
        forall bytes: seq<byte> | |bytes| == 16 ensures !Parses(s, bytes) {
          if Parses(s, bytes) { ParsedPair(s, bytes, i); }
        }
        return None;
      }
      out[i] := n.value;
    }
    return Some(out[..]);
  }

  lemma {:induction false} HexAt(bytes: seq<byte>, i: nat)
    requires i < |bytes|
    ensures Hex(bytes)[2 * i] == HexDigit(bytes[i] / 16) && Hex(bytes)[2 * i + 1] == HexDigit(bytes[i] % 16)
  {
    if i > 0 { HexAt(bytes[1..], i - 1); }
  }

  /** An id printed and parsed is that id, and nothing else. */
  lemma IdRoundTrip(bytes: seq<byte>, other: seq<byte>)
    ensures Parses(Hex(bytes), bytes)
    ensures Parses(Hex(bytes), other) ==> other == bytes
  {
    forall i | 0 <= i < |bytes| ensures Pair(Hex(bytes)[2 * i], Hex(bytes)[2 * i + 1]) == Some(bytes[i]) {
      HexAt(bytes, i);
      PairOfDigits(bytes[i]);
    }
  }

  lemma PairOfDigits(b: byte)
    ensures Pair(HexDigit(b / 16), HexDigit(b % 16)) == Some(b)
  {
    assert HexDigit(b / 16) != '+';
    assert 16 * (b / 16) + b % 16 == b;
  }

  /** A text that parses is the printed form of its id exactly when it is all lower-case hex digits:
      upper case and a plus sign are read, but never printed. */
  lemma PrintedIffLowerCase(s: string, bytes: seq<byte>)
    requires Parses(s, bytes)
    ensures Hex(bytes) == s <==> forall i | 0 <= i < |s| :: IsLowerHex(s[i])
  {
    forall i | 0 <= i < |bytes|
      ensures (Hex(bytes)[2 * i] == s[2 * i] && Hex(bytes)[2 * i + 1] == s[2 * i + 1]) <==>
              (IsLowerHex(s[2 * i]) && IsLowerHex(s[2 * i + 1]))
    {
      HexAt(bytes, i);
      PairCanonical(s[2 * i], s[2 * i + 1], bytes[i]);
    }
    if forall i | 0 <= i < |s| :: IsLowerHex(s[i]) {
      forall k | 0 <= k < |s| ensures Hex(bytes)[k] == s[k] {
        var i := k / 2;
        assert k == 2 * i || k == 2 * i + 1;
        assert IsLowerHex(s[2 * i]) && IsLowerHex(s[2 * i + 1]);
      }
    }
    if Hex(bytes) == s {
      forall k | 0 <= k < |s| ensures IsLowerHex(s[k]) {
        var i := k / 2;
        assert k == 2 * i || k == 2 * i + 1;
        assert Hex(bytes)[2 * i] == s[2 * i] && Hex(bytes)[2 * i + 1] == s[2 * i + 1];
      }
    }
  }

  lemma PairCanonical(a: char, b: char, n: byte)
    requires Pair(a, b) == Some(n)
    ensures (HexDigit(n / 16) == a && HexDigit(n % 16) == b) <==> (IsLowerHex(a) && IsLowerHex(b))
  {
    if IsLowerHex(a) && IsLowerHex(b) {
      var x, y := HexVal(a), HexVal(b);
      RemainderUnique(n, 16, x, y);
      assert HexDigit(x) == a && HexDigit(y) == b;
    }
  }
}
