/** What a room code looks like, what number its payload is, what its parser reads in a character, which
    differences between two codes it ignores, and when it fails. */
module RoomCodeForm {
  import opened Bytes
  import opened DialText
  import opened RoomCode
  import Base32

  // ----- letters -----

  predicate IsUpper(c: char) { 'A' <= c <= 'Z' }

  predicate IsLower(c: char) { 'a' <= c <= 'z' }

  /** The alphabet is the digits and the capital letters but I, L, O and U, in their order. */
  lemma AlphabetForm(i: nat, j: nat)
    requires i < j < 32
    ensures |Base32.ALPHABET| == 32 && Base32.ALPHABET[i] < Base32.ALPHABET[j]
    ensures var c := Base32.ALPHABET[i]; (IsDigit(c) || IsUpper(c)) && c !in "ILOU"
  {
    Base32.AlphabetDistinct(i, j);
    LetterForm(i);
  }

  /** What a character of a payload stands for: I and L for 1, O for 0, a letter of either case for its
      place in the alphabet; U and everything else for nothing. */
  lemma SymbolMeans(c: char)
    ensures c in "1IiLl" ==> Base32.Symbol(c) == Some(1)
    ensures c in "0Oo" ==> Base32.Symbol(c) == Some(0)
    ensures forall v: nat | v < 32 && Base32.ALPHABET[v] == c :: Base32.Symbol(c) == Some(v)
    ensures IsLower(c) && c !in "ilou" ==> c - 32 as char in Base32.ALPHABET && Base32.Symbol(c) == Base32.Symbol(c - 32 as char)
    ensures Base32.Symbol(c).None? <==> c in "Uu" || !(IsDigit(c) || IsUpper(c) || IsLower(c))
  {
    Base32.SymbolOfLetter(0);
    Base32.SymbolOfLetter(1);
    forall v: nat | v < 32 && Base32.ALPHABET[v] == c ensures Base32.Symbol(c) == Some(v) { Base32.SymbolOfLetter(v); }
    SymbolFolds(c);
    FoldCases(c);
    hide Base32.Symbol, Base32.Fold, Base32.Position, IsUpper, IsLower;
    if IsLower(c) && c !in "ilou" { SymbolFolds(c - 32 as char); }
  }

  lemma SymbolFolds(c: char)
    ensures Base32.Symbol(c) == Base32.Symbol(Base32.Fold(c))
    ensures Base32.Symbol(c).Some? <==> Base32.Fold(c) in Base32.ALPHABET
  {
    assert Base32.Fold(Base32.Fold(c)) == Base32.Fold(c);
  }

  function Place(c: char): (i: int) {
    if c <= '9' then c as int - 48
    else if c < 'I' then c as int - 55
    else if c < 'L' then c as int - 56
    else if c < 'O' then c as int - 57
    else if c < 'U' then c as int - 58
    else c as int - 59
  }

  lemma PlaceOf(c: char)
    requires (IsDigit(c) || IsUpper(c)) && c !in "ILOU"
    ensures 0 <= Place(c) < 32 && Base32.ALPHABET[Place(c)] == c
  {}

  lemma IsLetter(c: char)
    ensures c in Base32.ALPHABET <==> (IsDigit(c) || IsUpper(c)) && c !in "ILOU"
  {
    if (IsDigit(c) || IsUpper(c)) && c !in "ILOU" { PlaceOf(c); }
    if i :| 0 <= i < 32 && Base32.ALPHABET[i] == c { LetterForm(i); }
  }

  lemma LetterForm(i: nat)
    requires i < 32
    ensures var c := Base32.ALPHABET[i]; (IsDigit(c) || IsUpper(c)) && c !in "ILOU"
  {}

  /** What is left of a character after folding. */
  lemma FoldCases(c: char)
    ensures c in "1IiLl" ==> Base32.Fold(c) == '1' == Base32.ALPHABET[1]
    ensures c in "0Oo" ==> Base32.Fold(c) == '0' == Base32.ALPHABET[0]
    ensures IsLower(c) && c !in "ilou" ==> c - 32 as char in Base32.ALPHABET && Base32.Fold(c) == Base32.Fold(c - 32 as char)
    ensures Base32.Fold(c) !in Base32.ALPHABET <==> c in "Uu" || !(IsDigit(c) || IsUpper(c) || IsLower(c))
  {
    IsLetter(Base32.Fold(c));
    if IsLower(c) { IsLetter(c - 32 as char); }
    FirstLetters();
    FoldTable(c);
    if IsLower(c) { FoldTable(c - 32 as char); }
    hide Base32.Fold;
  }

  lemma FoldTable(c: char)
    ensures c in "1IiLl" <==> Base32.Fold(c) == '1'
    ensures c in "0Oo" <==> Base32.Fold(c) == '0'
    ensures c !in "IiLlOo" ==> Base32.Fold(c) == if IsLower(c) then c - 32 as char else c
  {}

  lemma FirstLetters()
    ensures |Base32.ALPHABET| == 32 && Base32.ALPHABET[1] == '1' && Base32.ALPHABET[0] == '0'
  {}

  // ----- differences that are ignored -----

  /** A character that is neither a letter nor a digit may stand anywhere. */
  lemma DecorationIgnored(front: string, c: char, back: string)
    requires !(IsDigit(c) || IsUpper(c) || IsLower(c))
    ensures Decoded(front + [c] + back) == Decoded(front + back)
  {
    NormalizeAppend(front + [c], back);
    NormalizeAppend(front, [c]);
    NormalizeAppend(front, back);
    assert [c][1..] == "" && Normalize([c]) == "";
    FormattingIgnored(front + [c] + back, front + back);
  }

  predicate SameLetter(c: char, d: char) { c == d || (IsLower(c) && d == c - 32 as char) || (IsUpper(c) && d == c + 32 as char) }

  /** The case of a letter makes no difference. */
  lemma CaseIgnored(code: string, other: string)
    requires |code| == |other| && forall i | 0 <= i < |code| :: SameLetter(code[i], other[i])
    ensures Decoded(code) == Decoded(other)
  {
    SameNormalized(code, other);
    FormattingIgnored(code, other);
  }

  lemma {:induction false} SameNormalized(code: string, other: string)
    requires |code| == |other| && forall i | 0 <= i < |code| :: SameLetter(code[i], other[i])
    ensures Normalize(code) == Normalize(other)
  {
    if code != "" {
      assert SameLetter(code[0], other[0]);
      SameNormalized(code[1..], other[1..]);
    }
  }

  /** The same letter but for its case, or two that are taken for the same digit. */
  predicate Alike(c: char, d: char) {
    SameLetter(c, d) || (c in "1IiLl" && d in "1IiLl") || (c in "0Oo" && d in "0Oo")
  }

  /** Behind the tag I, L and 1 are the same, and O and 0. */
  lemma LookalikesIgnored(code: string, other: string)
    requires |code| == |other| > 0 && code[0] == other[0] && IsAlnum(code[0])
    requires forall i | 0 <= i < |code| :: Alike(code[i], other[i])
    ensures Decoded(code) == Decoded(other)
  {
    forall i | 0 <= i < |code|
      ensures (IsAlnum(code[i]) <==> IsAlnum(other[i])) && Base32.Fold(code[i]) == Base32.Fold(other[i])
    {
      assert Alike(code[i], other[i]);
      AlikeFolds(code[i], other[i]);
    }
    SubstitutionsIgnored(code, other);
  }

  lemma AlikeFolds(c: char, d: char)
    requires Alike(c, d)
    ensures (IsAlnum(c) <==> IsAlnum(d)) && Base32.Fold(c) == Base32.Fold(d)
  {
    FoldTable(c);
    FoldTable(d);
    hide Base32.Fold;
  }

  // ----- when decoding fails -----

  lemma {:induction false} SymbolicIff(s: string)
    ensures Base32.Symbolic(s).Some? <==> forall i | 0 <= i < |s| :: Base32.Symbol(s[i]).Some?
  {
    hide Base32.Symbol;
    if s != "" {
      SymbolicIff(s[1..]);
      assert forall i | 0 <= i < |s[1..]| :: s[1..][i] == s[i + 1];
      if forall i | 0 <= i < |s[1..]| :: Base32.Symbol(s[1..][i]).Some? {
        forall i | 0 < i < |s| ensures Base32.Symbol(s[i]).Some? { assert s[i] == s[1..][i - 1]; }
      }
    }
  }

  /** A payload of letters and digits in upper case is refused for a U, and else for being too short. */
  lemma PayloadFails(payload: string, n: nat)
    requires Clean(payload)
    ensures Base32.Decoded(payload, n) == Err(Base32.BadCharacter) <==> 'U' in payload
    ensures Base32.Decoded(payload, n) == Err(Base32.TooShort) <==> 'U' !in payload && 5 * |payload| < 8 * n
  {
    SymbolicIff(payload);
    forall i | 0 <= i < |payload| ensures Base32.Symbol(payload[i]).None? <==> payload[i] == 'U' {
      assert IsAlnum(payload[i]) && Base32.Upper(payload[i]) == payload[i];
      SymbolMeans(payload[i]);
    }
    hide Base32.Symbol;
    var values := Base32.Symbolic(payload);
    if values.Some? {
      Base32.SpreadLength(values.value);
      Base32.SpreadOctets(Base32.Spread(values.value, 5));
    }
  }

  /** When a code does not decode, and why: nothing left of it; another tag than L or B; a U in the
      payload; fewer than 10 characters of payload for an address and port, or 12 for an address and
      channel; port 0; a channel outside 1 to 30. */
  lemma DecodeFails(code: string)
    ensures var p := Normalize(code);
            && (Decoded(code) == Err(EmptyCode) <==> p == "")
            && (Decoded(code) == Err(UnknownTag) <==> p != "" && p[0] != 'L' && p[0] != 'B')
            && (Decoded(code) == Err(BadPayload(Base32.BadCharacter)) <==> p != "" && p[0] in "LB" && 'U' in p[1..])
            && (Decoded(code) == Err(BadPayload(Base32.TooShort)) <==>
                  p != "" && p[0] in "LB" && 'U' !in p[1..] && |p[1..]| < if p[0] == 'L' then 10 else 12)
            && (Decoded(code) == Err(BadPort) ==> p != "" && p[0] == 'L')
            && (Decoded(code) == Err(BadChannel) ==> p != "" && p[0] == 'B')
            && Decoded(code) != Err(BadAddress)
  {
    NormalizeIsClean(code);
    var p := Normalize(code);
    hide Normalize;
    if p != "" {
      TagReads(p[0]);
      assert Clean(p[1..]);
      hide Base32.Upper, FromTag, DecodedPayload, Clean;
      PayloadOutcome(Lan, p[1..]);
      PayloadOutcome(Bluetooth, p[1..]);
    }
  }

  lemma TagReads(c: char)
    ensures Base32.Upper(c) == c ==> FromTag(c) == if c == 'L' then Some(Lan) else if c == 'B' then Some(Bluetooth) else None
  {}

  lemma PayloadOutcome(kind: Kind, payload: string)
    requires Clean(payload)
    ensures var r := DecodedPayload(kind, payload);
            && (r == Err(BadPayload(Base32.BadCharacter)) <==> 'U' in payload)
            && (r == Err(BadPayload(Base32.TooShort)) <==> 'U' !in payload && |payload| < if kind.Lan? then 10 else 12)
            && (r.Err? ==> r.fault.BadPayload? || r.fault == if kind.Lan? then BadPort else BadChannel)
  {
    PayloadFails(payload, Length(kind));
    DecodedAreBytes(payload, Length(kind));
    hide Base32.Decoded, FormatSocket, FormatDial, Clean;
  }

  // ----- the printed form -----

  predicate InAlphabet(s: string) { forall i | 0 <= i < |s| :: s[i] in Base32.ALPHABET }

  /** A LAN code is L and two groups of five, a Bluetooth code B and groups of five, five and two. */
  lemma CodeLooks(kind: Kind, dial: string) returns (a: string, b: string, c: string)
    requires Encoded(kind, dial).Ok?
    ensures InAlphabet(a) && InAlphabet(b) && InAlphabet(c) && |a| == |b| == 5
    ensures Encoded(kind, dial).value == if kind.Lan? then "L-" + a + "-" + b else "B-" + a + "-" + b + "-" + c
    ensures kind.Bluetooth? ==> |c| == 2
  {
    var bytes := EncodedBytes(kind, dial);
    hide *;
    var text := Base32.Encoded(bytes);
    BytesOf(kind);
    TextLooks(bytes);
    a, b, c := text[..5], text[5..10], text[10..];
    InPieces(text);
    GroupsOf(kind, text);
  }

  lemma BytesOf(kind: Kind)
    ensures Length(kind) == if kind.Lan? then 6 else 7
  {}

  lemma InPieces(text: string)
    requires |text| >= 10 && InAlphabet(text)
    ensures InAlphabet(text[..5]) && InAlphabet(text[5..10]) && InAlphabet(text[10..])
  {}

  lemma EncodedBytes(kind: Kind, dial: string) returns (bytes: seq<byte>)
    requires Encoded(kind, dial).Ok?
    ensures |bytes| == Length(kind) && Encoded(kind, dial).value == Pretty(Tag(kind), Base32.Encoded(bytes))
  {
    hide ParseSocket, ParseDial, Base32.Encoded, Pretty;
    bytes := if kind.Lan? then SocketBytes(ParseSocket(dial).value) else RadioBytes(ParseDial(dial).value);
  }

  lemma TextLooks(bytes: seq<byte>)
    requires |bytes| == 6 || |bytes| == 7
    ensures |Base32.Encoded(bytes)| == (if |bytes| == 6 then 10 else 12) && InAlphabet(Base32.Encoded(bytes))
  {
    Base32.RoundTrip(bytes);
    TextIsClean(bytes);
    hide Base32.Encoded, Clean, Base32.Decoded, Base32.Fold;
  }

  lemma GroupsOf(kind: Kind, text: string)
    requires |text| == if kind.Lan? then 10 else 12
    ensures Pretty(Tag(kind), text) ==
            if kind.Lan? then "L-" + text[..5] + "-" + text[5..10] else "B-" + text[..5] + "-" + text[5..10] + "-" + text[10..]
  {
    assert Grouped(text) == text[..5] + "-" + Grouped(text[5..]);
    if |text| == 12 { assert Grouped(text[5..]) == text[5..10] + "-" + text[10..]; }
  }

  // ----- the payload as a number -----

  /** The number whose digits in base 32 are `values`. */
  function Number(values: seq<nat>): nat {
    if values == [] then 0 else 32 * Number(values[..|values| - 1]) + values[|values| - 1]
  }

  lemma {:induction false} NumberOfSymbols(values: seq<nat>)
    requires forall i | 0 <= i < |values| :: values[i] < 32
    ensures Number(values) == Base32.Val(Base32.Spread(values, 5))
  {
    if values != [] {
      var front, v := values[..|values| - 1], values[|values| - 1];
      NumberOfSymbols(front);
      assert values == front + [v];
      Base32.SpreadAppend(front, v, 5);
      Base32.Fives();
      Base32.ValBits(v, 5);
      Base32.ValAppend(Base32.Spread(front, 5), Base32.Bits(v, 5));
    }
  }

  lemma {:induction false} NumberOfBytes(data: seq<byte>)
    ensures FromBytes(data) == Base32.Val(Base32.Spread(data, 8))
  {
    if data != [] {
      var front, b := data[..|data| - 1], data[|data| - 1];
      NumberOfBytes(front);
      assert data == front + [b];
      Base32.SpreadAppend(front, b, 8);
      Base32.Fives();
      Base32.ValBits(b, 8);
      Base32.ValAppend(Base32.Spread(front, 8), Base32.Bits(b, 8));
    }
  }

  /** The symbols of some bytes are the number they spell, in base 32, moved up to a whole symbol. */
  lemma SymbolsNumber(data: seq<byte>)
    ensures Number(Base32.Symbols(data)) == Base32.Times(FromBytes(data), Base32.Pow2(Base32.Padding(8 * |data|)))
  {
    hide Base32.Spread, Base32.Val, Base32.Bits, Base32.Pow2, Base32.Packed, Base32.Times, Number, FromBytes, Base32.Padding;
    var b, pad := Base32.Spread(data, 8), Base32.Zeros(Base32.Padding(8 * |data|));
    Base32.Fives();
    Base32.SpreadLength(data);
    Base32.SpreadPacked(b + pad);
    NumberOfSymbols(Base32.Symbols(data));
    NumberOfBytes(data);
    Base32.ValAppend(b, pad);
    Base32.ValZero(pad);
  }

  lemma TextIsNumber(data: seq<byte>)
    ensures Spells(Base32.Encoded(data)) == Base32.Times(FromBytes(data), Base32.Pow2(Base32.Padding(8 * |data|)))
  {
    SymbolsNumber(data);
    Base32.Fives();
    Base32.SymbolicText(Base32.Symbols(data));
    hide Base32.Spread, Base32.Pow2, Base32.Packed, Base32.Times, Base32.Symbolic, Number, FromBytes;
  }

  function Spells(text: string): nat { if Base32.Symbolic(text).Some? then Number(Base32.Symbolic(text).value) else 0 }

  /** What follows the tag of a code. */
  function PayloadOf(code: string): string { if Normalize(code) == "" then "" else Normalize(code)[1..] }

  lemma PayloadNumber(kind: Kind, bytes: seq<byte>)
    requires |bytes| == Length(kind)
    ensures Spells(PayloadOf(Pretty(Tag(kind), Base32.Encoded(bytes)))) == FromBytes(bytes) * if kind.Lan? then 4 else 16
  {
    var code := Pretty(Tag(kind), Base32.Encoded(bytes));
    TextIsNumber(bytes);
    CodeDecodes(kind, bytes);
    assert PayloadOf(code) == Base32.Encoded(bytes) by { hide Decoded, Pretty, Base32.Encoded, PayloadText; }
    FillOfCodes();
    hide Decoded, Normalize, Pretty, PayloadOf, Base32.Encoded, Spells, FromBytes, PayloadText, Base32.Pow2, Base32.Padding;
  }

  lemma FillOfCodes()
    ensures Base32.Pow2(Base32.Padding(48)) == 4 && Base32.Pow2(Base32.Padding(56)) == 16
  {}

  /** The payload of a LAN code is the four octets and the 16-bit port as one number, with two more zero
      bits. */
  lemma LanNumber(dial: string)
    requires ParseSocket(dial).Some?
    ensures var s := ParseSocket(dial).value;
            Encoded(Lan, dial).Ok? &&
            Spells(PayloadOf(Encoded(Lan, dial).value)) == 4 * (0x1_0000 * Word(s.a, s.b, s.c, s.d) + s.port)
  {
    var s := ParseSocket(dial).value;
    SocketNumber(s);
    PayloadNumber(Lan, SocketBytes(s));
    hide SocketBytes, ParseSocket, Spells, PayloadOf, Pretty, FromBytes, Word, Base32.Encoded;
  }

  lemma SocketNumber(s: Socket)
    requires IsSocket(s)
    ensures |SocketBytes(s)| == 6 && FromBytes(SocketBytes(s)) == 0x1_0000 * Word(s.a, s.b, s.c, s.d) + s.port
  {
    var front: seq<byte> := [s.a, s.b, s.c, s.d];
    FourBytes(front);
    Widths();
    NumberRoundTrip(s.port, 2);
    var port := ToBytes(s.port, 2);
    TwoMore(front, port);
  }

  lemma TwoMore(front: seq<byte>, back: seq<byte>)
    requires |back| == 2
    ensures FromBytes(front + back) == 0x1_0000 * FromBytes(front) + FromBytes(back)
  {
    var all := front + back;
    assert all[..|all| - 1] == front + back[..1] && all[..|all| - 1][..|all| - 2] == front;
    assert back[..1][..0] == [];
    assert FromBytes(back[..1]) == back[0];
    assert FromBytes(front + back[..1]) == 256 * FromBytes(front) + back[0];
  }

  /** The payload of a Bluetooth code is the 48-bit address and the channel as one number, with four more
      zero bits. */
  lemma BluetoothNumber(dial: string)
    requires Encoded(Bluetooth, dial).Ok?
    ensures var r := ParseDial(dial).value;
            Spells(PayloadOf(Encoded(Bluetooth, dial).value)) == 16 * (0x100 * r.addr + r.channel)
  {
    var r := ParseDial(dial).value;
    RadioNumber(r);
    PayloadNumber(Bluetooth, RadioBytes(r));
    hide RadioBytes, ParseDial, Spells, PayloadOf, Pretty, FromBytes, Base32.Encoded;
  }

  lemma RadioNumber(r: Radio)
    requires r.addr < ADDRESS_LIMIT && ValidChannel(r.channel)
    ensures |RadioBytes(r)| == 7 && FromBytes(RadioBytes(r)) == 0x100 * r.addr + r.channel
  {
    Widths();
    LowBytes(r.addr, 6);
    NumberRoundTrip(r.addr, 6);
    assert RadioBytes(r)[..6] == ToBytes(r.addr, 6);
  }

  // ----- the text of an address -----

  /** How an address and port are printed: octet by octet, in decimal. */
  lemma SocketLooks()
    ensures FormatSocket(Socket(192, 168, 1, 24, 47021)) == "192.168.1.24:47021"
  {
    Numerals();
    hide Dec;
  }

  lemma Numerals()
    ensures Dec(192) == "192" && Dec(168) == "168" && Dec(1) == "1" && Dec(24) == "24" && Dec(47021) == "47021"
  {}

  const CAPITALS := "0123456789ABCDEF"

  /** How a Bluetooth address is printed: twelve hex digits in capitals, the most significant first. */
  lemma AddressLooks(addr: nat, i: nat)
    requires addr < ADDRESS_LIMIT && i < 12
    ensures |FormatAddr(addr)| == 12 && Pow16(i) > 0 && FormatAddr(addr)[11 - i] == CAPITALS[addr / Pow16(i) % 16]
  {
    hide Hex, Pow16, HexDigit;
    HexPlace(addr, 12, i);
    CapitalDigit(addr / Pow16(i) % 16);
  }

  lemma CapitalDigit(n: nat)
    requires n < 16
    ensures HexDigit(n) == CAPITALS[n]
  {}

  lemma {:induction false} HexPlace(n: nat, k: nat, i: nat)
    requires i < k
    ensures Pow16(i) > 0 && Hex(n, k)[k - 1 - i] == HexDigit(n / Pow16(i) % 16)
  {
    if i > 0 {
      HexPlace(n / 16, k - 1, i - 1);
      DivideTwice(n, Pow16(i - 1));
    }
  }

  lemma DivideTwice(n: nat, p: nat)
    requires p > 0
    ensures n / 16 / p == n / (16 * p)
  {
    var q, r := n / 16 / p, n / 16 % p;
    assert n / 16 == p * q + r;
    assert n == (16 * p) * q + (16 * r + n % 16) by { assert 16 * (p * q) == (16 * p) * q; }
    RemainderUnique(n, 16 * p, q, 16 * r + n % 16);
  }

  // ----- which texts are addresses -----

  /** Digits without a leading zero are the decimal form of their value. */
  lemma {:induction false} DecOfVal(s: string)
    requires Digits(s) && s != "" && (s[0] == '0' ==> |s| == 1)
    ensures Dec(DecVal(s)) == s && (s[0] != '0' ==> DecVal(s) > 0)
  {
    var front := s[..|s| - 1];
    if front == "" {
      assert s == [s[0]];
    } else {
      DecOfVal(front);
      assert s == front + [s[|s| - 1]];
    }
  }

  predicate Stops(rest: string) { rest == "" || !IsDigit(rest[0]) }

  /** An octet is a number up to 255 without a leading zero, read to its last digit. */
  lemma OctetIff(s: string, n: nat, rest: string)
    ensures ReadOctet(s) == Some((n, rest)) <==> n <= 255 && s == Dec(n) + rest && Stops(rest)
  {
    if ReadOctet(s) == Some((n, rest)) {
      var k := DialText.Run(s);
      DecOfVal(s[..k]);
      assert s == s[..k] + s[k..];
    }
    if n <= 255 && s == Dec(n) + rest && Stops(rest) {
      ShortDec(n);
      ReadDec(n, rest, Some(3), false, 255);
    }
  }

  lemma NextIff(s: string, c: char, n: nat, rest: string)
    ensures NextOctet(s, c) == Some((n, rest)) <==> n <= 255 && s == [c] + (Dec(n) + rest) && Stops(rest)
  {
    if s != "" && s[0] == c {
      OctetIff(s[1..], n, rest);
      assert s == [c] + s[1..];
    }
    hide ReadOctet, Dec;
    if n <= 255 && s == [c] + (Dec(n) + rest) && Stops(rest) { assert s[1..] == Dec(n) + rest; }
  }

  /** A port is a number up to 65535; it may have leading zeros, and nothing may follow it. */
  predicate IsPort(text: string, port: nat) { text != "" && Digits(text) && DecVal(text) == port < 65536 }

  lemma PortIff(text: string, port: nat)
    ensures ReadNumber(text, None, true, 65535) == Some((port, "")) <==> IsPort(text, port)
  {
    var k := DialText.Run(text);
    assert text == text[..k] + text[k..] && text[..|text|] == text;
    if IsPort(text, port) {
      RunOf(text, "");
      assert text + "" == text;
    }
  }

  /** The text of address `s` with `port` for its port number. */
  function Written(s: Socket, port: string): string {
    Dec(s.a) + ("." + (Dec(s.b) + ("." + (Dec(s.c) + ("." + (Dec(s.d) + (":" + port)))))))
  }

  /** Exactly these texts are read as an address and port: four octets without leading zeros, with dots
      between them, a colon, and a port. */
  lemma SocketIff(text: string, s: Socket)
    ensures ParseSocket(text) == Some(s) <==> exists port :: IsPort(port, s.port) && text == Written(s, port)
  {
    hide ReadOctet, NextOctet, ReadNumber, Dec, IsPort;
    if ParseSocket(text) == Some(s) {
      var port := ReadSocket(text, s);
      assert IsPort(port, s.port) && text == Written(s, port);
    }
    if port :| IsPort(port, s.port) && text == Written(s, port) { WrittenIsRead(s, port); }
  }

  lemma ReadSocket(text: string, s: Socket) returns (port: string)
    requires ParseSocket(text) == Some(s)
    ensures IsPort(port, s.port) && text == Written(s, port)
  {
    hide ReadOctet, NextOctet, ReadNumber, Dec, IsPort;
    var a := ReadOctet(text).value.1;
    var b := NextOctet(a, '.').value.1;
    var c := NextOctet(b, '.').value.1;
    var d := NextOctet(c, '.').value.1;
    OctetIff(text, s.a, a);
    NextIff(a, '.', s.b, b);
    NextIff(b, '.', s.c, c);
    NextIff(c, '.', s.d, d);
    port := d[1..];
    assert d == ":" + port;
    PortIff(port, s.port);
  }

  lemma WrittenIsRead(s: Socket, port: string)
    requires IsPort(port, s.port)
    ensures ParseSocket(Written(s, port)) == Some(s)
  {
    hide ReadOctet, NextOctet, ReadNumber, Dec, IsPort;
    var d := ":" + port;
    var c := "." + (Dec(s.d) + d);
    var b := "." + (Dec(s.c) + c);
    var a := "." + (Dec(s.b) + b);
    OctetIff(Dec(s.a) + a, s.a, a);
    NextIff(a, '.', s.b, b);
    NextIff(b, '.', s.c, c);
    NextIff(c, '.', s.d, d);
    assert d[1..] == port;
    PortIff(port, s.port);
  }

  // ----- which texts are Bluetooth addresses -----

  /** A channel is a 32-bit number behind at most one plus sign. */
  predicate IsChannel(text: string, n: nat) {
    var digits := if text != "" && text[0] == '+' then text[1..] else text;
    digits != "" && Digits(digits) && DecVal(digits) == n < 0x1_0000_0000
  }

  /** A Bluetooth address is twelve hex digits, whatever stands between and around them. */
  predicate IsAddress(text: string, addr: nat) { |OnlyHex(text)| == 12 && FromHex(OnlyHex(text)) == addr }

  /** Exactly these texts are read as an address and channel: what is before the last colon, and what is
      behind it. */
  lemma RadioIff(text: string, r: Radio)
    ensures ParseDial(text) == Some(r) <==>
            exists mac, ch :: text == mac + ":" + ch && ':' !in ch && IsAddress(mac, r.addr) && IsChannel(ch, r.channel)
  {
    hide ParseDial, LastColon, IsAddress, IsChannel;
    if ParseDial(text) == Some(r) {
      var mac, ch := ReadRadio(text, r);
      assert text == mac + ":" + ch && ':' !in ch && IsAddress(mac, r.addr) && IsChannel(ch, r.channel);
    }
    if mac, ch :| text == mac + ":" + ch && ':' !in ch && IsAddress(mac, r.addr) && IsChannel(ch, r.channel) {
      RadioIsRead(mac, ch, r);
    }
  }

  lemma ReadRadio(text: string, r: Radio) returns (mac: string, ch: string)
    requires ParseDial(text) == Some(r)
    ensures text == mac + ":" + ch && ':' !in ch && IsAddress(mac, r.addr) && IsChannel(ch, r.channel)
  {
    hide OnlyHex, FromHex, DecVal, Digits, LastColon;
    var i := LastColon(text);
    mac, ch := text[..i], text[i + 1..];
    assert text == mac + ":" + ch;
    ChannelIff(ch, r.channel);
  }

  lemma RadioIsRead(mac: string, ch: string, r: Radio)
    requires ':' !in ch && IsAddress(mac, r.addr) && IsChannel(ch, r.channel)
    ensures ParseDial(mac + ":" + ch) == Some(r)
  {
    hide OnlyHex, FromHex, DecVal, Digits, LastColon;
    var text := mac + ":" + ch;
    LastOf(mac, ch);
    assert text[..|mac|] == mac && text[|mac| + 1..] == ch;
    ChannelIff(ch, r.channel);
  }

  lemma LastOf(mac: string, ch: string)
    requires ':' !in ch
    ensures LastColon(mac + ":" + ch) == |mac|
  {
    hide LastColon;
    var s := mac + ":" + ch;
    assert s[|mac|] == ':';
  }

  lemma ChannelIff(text: string, n: nat)
    ensures ParseU32(text) == Some(n) <==> IsChannel(text, n)
  {}

  const HEX_DIGITS := "0123456789abcdefABCDEF"

  /** A character that is no hex digit may stand anywhere in a Bluetooth address. */
  lemma SeparatorsIgnored(front: string, c: char, back: string)
    requires c !in HEX_DIGITS
    ensures ParseAddr(front + [c] + back) == ParseAddr(front + back)
  {
    if IsHex(c) { NoHexDigit(c); }
    OnlyHexAppend(front + [c], back);
    OnlyHexAppend(front, [c]);
    OnlyHexAppend(front, back);
    assert [c][1..] == "" && OnlyHex([c]) == "";
    hide FromHex, OnlyHex;
    assert OnlyHex(front + [c] + back) == OnlyHex(front + back);
  }

  lemma NoHexDigit(c: char)
    requires IsHex(c)
    ensures c in HEX_DIGITS
  {
    assert HEX_DIGITS[if c <= '9' then c as int - 48 else if c <= 'F' then c as int - 49 else c as int - 87] == c;
  }

  lemma {:induction false} OnlyHexAppend(s: string, t: string)
    ensures OnlyHex(s + t) == OnlyHex(s) + OnlyHex(t)
  {
    if s == "" {
      assert s + t == t;
    } else {
      OnlyHexAppend(s[1..], t);
      assert (s + t)[1..] == s[1..] + t;
    }
  }
}
