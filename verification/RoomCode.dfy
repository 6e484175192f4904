/** Room codes (core/src/roomcode.rs): tag, grouping, address packing, and the parser that ignores
    formatting. */
module RoomCode {
  import opened Bytes
  import opened DialText
  import Base32

  datatype Kind = Lan | Bluetooth

  datatype Fault = BadAddress | BadChannel | EmptyCode | UnknownTag | BadPayload(fault: Base32.Fault) | BadPort

  function Tag(kind: Kind): char { if kind.Lan? then 'L' else 'B' }

  function FromTag(c: char): Option<Kind> {
    match Base32.Upper(c)
    case 'L' => Some(Lan)
    case 'B' => Some(Bluetooth)
    case _ => None
  }

  predicate IsAlnum(c: char) { '0' <= c <= '9' || 'a' <= c <= 'z' || 'A' <= c <= 'Z' }

  /** Letters and digits only, in upper case: what `split` makes of a code, and `normalize_code` too
      (core/src/mesh.rs:1074-1079). */
  function Normalize(s: string): string {
    if s == "" then "" else (if IsAlnum(s[0]) then [Base32.Upper(s[0])] else "") + Normalize(s[1..])
  }

  /** `split`. */
  function Split(code: string): Result<(Kind, string), Fault> {
    var cleaned := Normalize(code);
    if cleaned == "" then Err(EmptyCode) else
    var kind := FromTag(cleaned[0]);
    if kind.None? then Err(UnknownTag) else Ok((kind.value, cleaned[1..]))
  }

  /** Groups of five, with dashes between them. */
  function Grouped(payload: string): string {
    if |payload| <= 5 then payload else payload[..5] + "-" + Grouped(payload[5..])
  }

  /** `pretty`. */
  function Pretty(tag: char, payload: string): string { [tag] + "-" + Grouped(payload) }

  predicate ValidChannel(channel: nat) { 1 <= channel <= 30 }

  function SocketBytes(s: Socket): seq<byte> { [s.a, s.b, s.c, s.d] + ToBytes(s.port, 2) }

  /** The low 48 bits of the 64-bit address, and the channel. */
  function RadioBytes(r: Radio): seq<byte>
    requires ValidChannel(r.channel)
  {
    ToBytes(r.addr, 8)[2..] + [r.channel]
  }

  /** What `encode` makes of a dial address. */
  function Encoded(kind: Kind, dial: string): Result<string, Fault> {
    match kind
    case Lan => (
      match ParseSocket(dial)
      case None => Err(BadAddress)
      case Some(s) => Ok(Pretty(Tag(kind), Base32.Encoded(SocketBytes(s)))))
    case Bluetooth => (
      match ParseDial(dial)
      case None => Err(BadAddress)
      case Some(r) =>
        if !ValidChannel(r.channel) then Err(BadChannel)
        else Ok(Pretty(Tag(kind), Base32.Encoded(RadioBytes(r)))))
  }

  predicate AreBytes(bytes: seq<nat>) { forall i | 0 <= i < |bytes| :: bytes[i] < 256 }

  function AsBytes(bytes: seq<nat>): (bs: seq<byte>)
    requires AreBytes(bytes)
    ensures bs == bytes
  {
    seq(|bytes|, i requires 0 <= i < |bytes| => bytes[i])
  }

  function SocketText(bytes: seq<byte>): Result<string, Fault>
    requires |bytes| == 6
  {
    var port := FromBytes(bytes[4..]);
    Widths();
    if port == 0 then Err(BadPort)
    else Ok(FormatSocket(Socket(bytes[0], bytes[1], bytes[2], bytes[3], port)))
  }

  function RadioText(bytes: seq<byte>): Result<string, Fault>
    requires |bytes| == 7
  {
    if !ValidChannel(bytes[6]) then Err(BadChannel) else Ok(FormatDial(Radio(FromBytes(bytes[..6]), bytes[6])))
  }

  function Length(kind: Kind): nat { if kind.Lan? then 6 else 7 }

  function PayloadText(kind: Kind, bytes: seq<byte>): Result<string, Fault>
    requires |bytes| == Length(kind)
  {
    if kind.Lan? then SocketText(bytes) else RadioText(bytes)
  }

  function DecodedPayload(kind: Kind, payload: string): Result<(Kind, string), Fault> {
    match Base32.Decoded(payload, Length(kind))
    case Err(fault) => Err(BadPayload(fault))
    case Ok(bytes) =>
      DecodedAreBytes(payload, Length(kind));
      (match PayloadText(kind, AsBytes(bytes))
       case Err(fault) => Err(fault)
       case Ok(dial) => Ok((kind, dial)))
  }

  /** What `decode` makes of a code. */
  function Decoded(code: string): Result<(Kind, string), Fault> {
    match Split(code)
    case Err(fault) => Err(fault)
    case Ok((kind, payload)) => DecodedPayload(kind, payload)
  }

  lemma DecodedAreBytes(payload: string, n: nat)
    ensures Base32.Decoded(payload, n).Ok? ==>
              AreBytes(Base32.Decoded(payload, n).value) && |Base32.Decoded(payload, n).value| == n
  {
    Base32.Fives();
    hide Base32.Packed;
  }

  // ----- the two functions of the source -----

  method Encode(kind: Kind, dial: string) returns (r: Result<string, Fault>)
    ensures r == Encoded(kind, dial)
  {
    match kind
    case Lan =>
      var s := ParseSocket(dial);
      if s.None? { return Err(BadAddress); }
      var bytes: seq<byte> := [s.value.a, s.value.b, s.value.c, s.value.d];
      bytes := bytes + ToBytes(s.value.port, 2);
      var text := Base32.Encode(bytes);
      return Ok(Pretty(Tag(kind), text));
    case Bluetooth =>
      var d := ParseDial(dial);
      if d.None? { return Err(BadAddress); }
      if d.value.channel == 0 || d.value.channel > 30 { return Err(BadChannel); }
      var bytes := ToBytes(d.value.addr, 8)[2..];
      bytes := bytes + [d.value.channel];
      var text := Base32.Encode(bytes);
      return Ok(Pretty(Tag(kind), text));
  }

  /** The address loop of the Bluetooth arm, in a 64-bit word. */
  method JoinAddress(bytes: seq<byte>) returns (addr: nat)
    requires |bytes| == 6
    ensures addr == FromBytes(bytes)
  {
    addr := 0;
    for i := 0 to 6
      invariant addr == FromBytes(bytes[..i])
    {
      assert bytes[..i + 1][..i] == bytes[..i];
      AddressFits(bytes[..i]);
      addr := (addr * 256) % 0x1_0000_0000_0000_0000 + bytes[i];
    }
    assert bytes[..6] == bytes;
  }

  lemma AddressFits(bytes: seq<byte>)
    requires |bytes| < 7
    ensures FromBytes(bytes) < 0x1_0000_0000_0000
  {
    Widths();
    PowGrows(|bytes|, 6);
  }

  lemma {:induction false} PowGrows(a: nat, b: nat)
    requires a <= b
    ensures Pow256(a) <= Pow256(b)
  {
    if a < b { PowGrows(a, b - 1); }
  }

  method Decode(code: string) returns (r: Result<(Kind, string), Fault>)
    ensures r == Decoded(code)
  {
    var split := Split(code);
    if split.Err? { return Err(split.fault); }
    var (kind, payload) := split.value;
    DecodedAreBytes(payload, Length(kind));
    var raw := Base32.Decode(payload, Length(kind));
    if raw.Err? { return Err(BadPayload(raw.fault)); }
    var bytes := AsBytes(raw.value);
    match kind
    case Lan =>
      Widths();
      var port := FromBytes(bytes[4..]);
      if port == 0 { return Err(BadPort); }
      return Ok((kind, FormatSocket(Socket(bytes[0], bytes[1], bytes[2], bytes[3], port))));
    case Bluetooth =>
      var addr := JoinAddress(bytes[..6]);
      var channel := bytes[6];
      if channel == 0 || channel > 30 { return Err(BadChannel); }
      return Ok((kind, FormatDial(Radio(addr, channel))));
  }

  // ----- formatting is ignored -----

  lemma {:induction false} NormalizeAppend(s: string, t: string)
    ensures Normalize(s + t) == Normalize(s) + Normalize(t)
  {
    if s == "" {
      assert s + t == t;
    } else {
      NormalizeAppend(s[1..], t);
      assert (s + t)[1..] == s[1..] + t;
    }
  }

  predicate Clean(s: string) { forall i | 0 <= i < |s| :: IsAlnum(s[i]) && Base32.Upper(s[i]) == s[i] }

  lemma {:induction false} NormalizeClean(s: string)
    requires Clean(s)
    ensures Normalize(s) == s
  {
    if s != "" { NormalizeClean(s[1..]); }
  }

  lemma {:induction false} NormalizeIsClean(s: string)
    ensures Clean(Normalize(s))
  {
    if s != "" { NormalizeIsClean(s[1..]); }
  }

  lemma {:induction false} NormalizeGrouped(payload: string)
    requires Clean(payload)
    ensures Normalize(Grouped(payload)) == payload
    decreases |payload|
  {
    if |payload| <= 5 {
      NormalizeClean(payload);
    } else {
      var rest := Grouped(payload[5..]);
      NormalizeGrouped(payload[5..]);
      NormalizeClean(payload[..5]);
      NormalizeAppend(payload[..5] + "-", rest);
      NormalizeAppend(payload[..5], "-");
      assert Normalize("-") == "";
      assert payload == payload[..5] + payload[5..];
    }
  }

  lemma NormalizePretty(kind: Kind, payload: string)
    requires Clean(payload)
    ensures Normalize(Pretty(Tag(kind), payload)) == [Tag(kind)] + payload
  {
    var t := [Tag(kind)];
    assert Clean(t);
    NormalizeClean(t);
    NormalizeGrouped(payload);
    NormalizeAppend(t + "-", Grouped(payload));
    NormalizeAppend(t, "-");
    assert Normalize("-") == "";
  }

  /** `decode` depends only on the normalized code: dashes, spaces, case and any other decoration are
      ignored. */
  lemma FormattingIgnored(code: string, other: string)
    requires Normalize(code) == Normalize(other)
    ensures Decoded(code) == Decoded(other)
    ensures Decoded(Normalize(code)) == Decoded(code)
  {
    NormalizeIsClean(code);
    NormalizeClean(Normalize(code));
  }

  /** Two codes typed alike but for characters that fold alike. */
  predicate FoldsLike(code: string, other: string) {
    && |code| == |other|
    && forall i | 0 <= i < |code| :: (IsAlnum(code[i]) <==> IsAlnum(other[i])) && Base32.Fold(code[i]) == Base32.Fold(other[i])
  }

  lemma {:induction false} NormalizeFolds(code: string, other: string)
    requires FoldsLike(code, other)
    ensures var p, q := Normalize(code), Normalize(other);
            |p| == |q| && forall i | 0 <= i < |p| :: Base32.Fold(p[i]) == Base32.Fold(q[i])
  {
    if code != "" {
      NormalizeFolds(code[1..], other[1..]);
      UpperFolds(code[0]);
      UpperFolds(other[0]);
      hide Base32.Fold, Base32.Upper;
    }
  }

  lemma UpperFolds(c: char)
    ensures Base32.Fold(Base32.Upper(c)) == Base32.Fold(c)
  {}

  /** Writing I or L for 1 and O for 0 after the tag changes nothing, however the code is formatted, nor
      does any other choice of characters that fold alike. */
  lemma SubstitutionsIgnored(code: string, other: string)
    requires FoldsLike(code, other)
    requires Normalize(code) != "" ==> Normalize(other) != "" && Normalize(code)[0] == Normalize(other)[0]
    ensures Decoded(code) == Decoded(other)
  {
    NormalizeFolds(code, other);
    hide Normalize, Base32.Fold, DecodedPayload;
    if Normalize(code) != "" {
      var p, q := Normalize(code)[1..], Normalize(other)[1..];
      PayloadFolds(Lan, p, q);
      PayloadFolds(Bluetooth, p, q);
    }
  }

  lemma PayloadFolds(kind: Kind, payload: string, other: string)
    requires |payload| == |other| && forall i | 0 <= i < |payload| :: Base32.Fold(payload[i]) == Base32.Fold(other[i])
    ensures DecodedPayload(kind, payload) == DecodedPayload(kind, other)
  {
    Base32.FoldInvariant(payload, other, Length(kind));
  }

  // ----- the round trip -----

  lemma TextIsClean(data: seq<byte>)
    ensures Clean(Base32.Encoded(data))
    ensures forall i | 0 <= i < |Base32.Encoded(data)| ::
              Base32.Encoded(data)[i] in Base32.ALPHABET && Base32.Fold(Base32.Encoded(data)[i]) == Base32.Encoded(data)[i]
  {
    Base32.Fives();
    var values := Base32.Symbols(data);
    forall i | 0 <= i < |values| ensures values[i] < 32 && LetterClean(Base32.ALPHABET[values[i]]) { LetterIsClean(values[i]); }
  }

  predicate LetterClean(c: char) { IsAlnum(c) && Base32.Upper(c) == c && Base32.Fold(c) == c && c in Base32.ALPHABET }

  lemma LetterIsClean(v: nat)
    requires v < 32
    ensures LetterClean(Base32.ALPHABET[v])
  {}

  lemma PrettyDecodes(kind: Kind, payload: string)
    requires Clean(payload)
    ensures Normalize(Pretty(Tag(kind), payload)) == [Tag(kind)] + payload
    ensures Decoded(Pretty(Tag(kind), payload)) == DecodedPayload(kind, payload)
  {
    NormalizePretty(kind, payload);
    hide DecodedPayload, Normalize, Pretty, Clean;
    assert ([Tag(kind)] + payload)[1..] == payload;
  }

  /** A code made from `bytes` decodes to what the bytes say. */
  lemma CodeDecodes(kind: Kind, bytes: seq<byte>)
    requires |bytes| == Length(kind)
    ensures var code := Pretty(Tag(kind), Base32.Encoded(bytes));
            && Normalize(code) == [Tag(kind)] + Base32.Encoded(bytes)
            && Decoded(code) == match PayloadText(kind, bytes) case Err(f) => Err(f) case Ok(dial) => Ok((kind, dial))
  {
    var text := Base32.Encoded(bytes);
    TextIsClean(bytes);
    PrettyDecodes(kind, text);
    Base32.RoundTrip(bytes);
    hide Decoded, Normalize, Pretty, PayloadText, Base32.Encoded, Base32.Decoded;
    assert AsBytes(bytes) == bytes;
  }

  lemma SocketTextOf(s: Socket)
    requires IsSocket(s)
    ensures SocketText(SocketBytes(s)) == if s.port == 0 then Err(BadPort) else Ok(FormatSocket(s))
  {
    Widths();
    NumberRoundTrip(s.port, 2);
    assert SocketBytes(s)[4..] == ToBytes(s.port, 2);
  }

  lemma RadioTextOf(r: Radio)
    requires r.addr < ADDRESS_LIMIT && ValidChannel(r.channel)
    ensures |RadioBytes(r)| == 7 && RadioText(RadioBytes(r)) == Ok(FormatDial(r))
  {
    Widths();
    LowBytes(r.addr, 6);
    NumberRoundTrip(r.addr, 6);
    assert ToBytes(r.addr, 8)[2..] == ToBytes(r.addr, 6);
    assert RadioBytes(r)[..6] == ToBytes(r.addr, 6);
  }

  /** The last `k` bytes of an integer are its low bytes. */
  lemma {:induction false} LowBytes(n: nat, k: nat)
    ensures ToBytes(n, k + 2)[2..] == ToBytes(n, k)
  {
    if k > 0 {
      LowBytes(n / 256, k - 1);
    } else {
      assert ToBytes(n, 2)[2..] == [];
    }
  }

  /** For every IPv4 address and port, printed any way the parser reads: the code has 11 characters and
      decodes to the canonical text of the address, unless the port is 0, which `encode` lets through
      and `decode` refuses. */
  lemma LanRoundTrip(dial: string)
    requires ParseSocket(dial).Some?
    ensures var s := ParseSocket(dial).value;
            && Encoded(Lan, dial).Ok?
            && |Normalize(Encoded(Lan, dial).value)| == 11
            && Decoded(Encoded(Lan, dial).value) == if s.port == 0 then Err(BadPort) else Ok((Lan, FormatSocket(s)))
  {
    var s := ParseSocket(dial).value;
    hide SocketBytes, SocketText, Decoded, Normalize, Pretty, ParseSocket, FormatSocket, Base32.Encoded, Base32.Decoded;
    SocketLength(s);
    CodeDecodes(Lan, SocketBytes(s));
    SocketTextOf(s);
    Base32.RoundTrip(SocketBytes(s));
  }

  lemma SocketLength(s: Socket)
    ensures |SocketBytes(s)| == 6
  {}

  /** For every 48-bit address and channel 1 to 30: 13 characters, and back to the canonical text. */
  lemma BluetoothRoundTrip(dial: string)
    requires ParseDial(dial).Some?
    ensures var r := ParseDial(dial).value;
            && (Encoded(Bluetooth, dial).Ok? <==> ValidChannel(r.channel))
            && (ValidChannel(r.channel) ==>
                  && |Normalize(Encoded(Bluetooth, dial).value)| == 13
                  && Decoded(Encoded(Bluetooth, dial).value) == Ok((Bluetooth, FormatDial(r))))
  {
    hide RadioBytes, RadioText, Decoded, Normalize, Pretty, ParseDial, FormatDial, Base32.Encoded, Base32.Decoded;
    var r := ParseDial(dial).value;
    if ValidChannel(r.channel) {
      RadioTextOf(r);
      CodeDecodes(Bluetooth, RadioBytes(r));
      Base32.RoundTrip(RadioBytes(r));
    }
  }

  /** The dial text a listener produces is already canonical: it comes back unchanged, exactly when it
      is not port 0 or a channel outside 1 to 30. */
  lemma ListenerTextRoundTrip(s: Socket, r: Radio)
    requires IsSocket(s) && r.addr < ADDRESS_LIMIT && r.channel < 0x1_0000_0000
    ensures Encoded(Lan, FormatSocket(s)).Ok?
    ensures Decoded(Encoded(Lan, FormatSocket(s)).value) == Ok((Lan, FormatSocket(s))) <==> s.port != 0
    ensures Encoded(Bluetooth, FormatDial(r)).Ok? <==> 1 <= r.channel <= 30
    ensures 1 <= r.channel <= 30 ==> Decoded(Encoded(Bluetooth, FormatDial(r)).value) == Ok((Bluetooth, FormatDial(r)))
  {
    SocketRoundTrip(s);
    DialRoundTrip(r);
    LanRoundTrip(FormatSocket(s));
    BluetoothRoundTrip(FormatDial(r));
  }
}
