/** Which codes get a joiner in (core/src/mesh.rs:657): the joiner dials what its code decodes to, but
    the host compares the normalized codes, which says more. */
module AcceptedCodes {
  import opened Bytes
  import opened DialText
  import opened RoomCode
  import Base32

  predicate Accepts(host: string, joiner: string) { Normalize(joiner) == Normalize(host) }

  predicate Substituted(c: char) { c == 'I' || c == 'L' || c == 'O' }

  /** The payload has the printed length, no substituted letter, and zero fill bits: two of them for an
      address and a port, four for a Bluetooth address and a channel. */
  predicate AsPrinted(kind: Kind, payload: string) {
    && |payload| == (if kind.Lan? then 10 else 12)
    && (forall i | 0 <= i < |payload| :: !Substituted(payload[i]))
    && var last := Base32.Symbol(payload[|payload| - 1]);
       last.Some? && last.value % (if kind.Lan? then 4 else 16) == 0
  }

  // ----- what a code says about the bytes behind it -----

  lemma HostCode(kind: Kind, dial: string, host: string) returns (bytes: seq<byte>)
    requires Encoded(kind, dial) == Ok(host)
    ensures |bytes| == Length(kind) && host == Pretty(Tag(kind), Base32.Encoded(bytes))
  {
    hide Pretty, Base32.Encoded, ParseSocket, ParseDial;
    match kind
    case Lan => bytes := SocketBytes(ParseSocket(dial).value);
    case Bluetooth => bytes := RadioBytes(ParseDial(dial).value);
  }

  /** Different bytes print as different dial addresses. */
  lemma TextTells(kind: Kind, bytes: seq<byte>, other: seq<byte>)
    requires |bytes| == Length(kind) && |other| == Length(kind)
    requires PayloadText(kind, bytes).Ok? && PayloadText(kind, bytes) == PayloadText(kind, other)
    ensures bytes == other
  {
    if kind.Lan? { SocketTells(bytes, other); } else { RadioTells(bytes, other); }
  }

  lemma SocketTells(bytes: seq<byte>, other: seq<byte>)
    requires |bytes| == 6 && |other| == 6
    requires SocketText(bytes).Ok? && SocketText(bytes) == SocketText(other)
    ensures bytes == other
  {
    hide FormatSocket, ParseSocket;
    Widths();
    SocketRoundTrip(Socket(bytes[0], bytes[1], bytes[2], bytes[3], FromBytes(bytes[4..])));
    SocketRoundTrip(Socket(other[0], other[1], other[2], other[3], FromBytes(other[4..])));
    ToFromBytes(bytes[4..]);
    ToFromBytes(other[4..]);
    hide FromBytes, ToBytes;
    assert bytes == bytes[..4] + bytes[4..] && other == other[..4] + other[4..];
  }

  lemma RadioTells(bytes: seq<byte>, other: seq<byte>)
    requires |bytes| == 7 && |other| == 7
    requires RadioText(bytes).Ok? && RadioText(bytes) == RadioText(other)
    ensures bytes == other
  {
    hide FormatDial, ParseDial;
    Widths();
    DialRoundTrip(Radio(FromBytes(bytes[..6]), bytes[6]));
    DialRoundTrip(Radio(FromBytes(other[..6]), other[6]));
    ToFromBytes(bytes[..6]);
    ToFromBytes(other[..6]);
    hide FromBytes, ToBytes;
    assert bytes == bytes[..6] + [bytes[6]] && other == other[..6] + [other[6]];
  }

  /** A code that decodes like one made from `bytes` has its tag, and its payload decodes to `bytes`. */
  lemma JoinerBytes(kind: Kind, bytes: seq<byte>, joiner: string)
    requires |bytes| == Length(kind) && PayloadText(kind, bytes).Ok?
    requires Decoded(joiner) == Ok((kind, PayloadText(kind, bytes).value))
    ensures Normalize(joiner) != "" && Normalize(joiner)[0] == Tag(kind)
    ensures Clean(Normalize(joiner)[1..]) && Base32.Decoded(Normalize(joiner)[1..], Length(kind)) == Ok(bytes)
  {
    hide Decoded, DecodedPayload, PayloadText, Base32.Decoded;
    SplitJoiner(kind, joiner);
    PayloadBytes(kind, bytes, Normalize(joiner)[1..]);
  }

  lemma SplitJoiner(kind: Kind, joiner: string)
    requires Decoded(joiner).Ok? && Decoded(joiner).value.0 == kind
    ensures Normalize(joiner) != "" && Normalize(joiner)[0] == Tag(kind) && Clean(Normalize(joiner)[1..])
    ensures Decoded(joiner) == DecodedPayload(kind, Normalize(joiner)[1..])
  {
    var code := Normalize(joiner);
    NormalizeIsClean(joiner);
    if code != "" { TagTells(code[0]); }
    hide Normalize, PayloadText, Base32.Decoded, FromTag, Base32.Upper;
  }

  lemma PayloadBytes(kind: Kind, bytes: seq<byte>, payload: string)
    requires |bytes| == Length(kind) && PayloadText(kind, bytes).Ok?
    requires DecodedPayload(kind, payload) == Ok((kind, PayloadText(kind, bytes).value))
    ensures Base32.Decoded(payload, Length(kind)) == Ok(bytes)
  {
    hide PayloadText, Base32.Decoded;
    DecodedAreBytes(payload, Length(kind));
    TextTells(kind, AsBytes(Base32.Decoded(payload, Length(kind)).value), bytes);
  }

  lemma TagTells(c: char)
    ensures FromTag(c).Some? && Base32.Upper(c) == c ==> c == Tag(FromTag(c).value)
  {}

  // ----- the condition -----

  lemma PrintedIffCanonical(kind: Kind, payload: string)
    requires Clean(payload)
    ensures AsPrinted(kind, payload) <==> Base32.Canonical(payload, Length(kind))
  {
    Fills();
    hide Base32.Fill, Base32.Symbol;
    forall i | 0 <= i < |payload| ensures Base32.Fold(payload[i]) == payload[i] <==> !Substituted(payload[i]) {
      UnchangedIff(payload[i]);
    }
    hide Base32.Fold, Substituted;
  }

  lemma UnchangedIff(c: char)
    requires Base32.Upper(c) == c
    ensures Base32.Fold(c) == c <==> !Substituted(c)
  {}

  lemma Fills()
    ensures Base32.Fill(6) == 4 && Base32.Fill(7) == 16
  {
    assert Base32.Pow2(2) == 4;
    assert Base32.Pow2(4) == 4 * Base32.Pow2(2);
  }

  /** For every host's code and every code that decodes to the same: it gets the joiner in if and only if
      its payload is written as the host would print it. */
  lemma AcceptedIff(kind: Kind, dial: string, host: string, joiner: string)
    requires Encoded(kind, dial) == Ok(host) && Decoded(host).Ok? && Decoded(joiner) == Decoded(host)
    ensures Normalize(joiner) != ""
    ensures Accepts(host, joiner) <==> AsPrinted(kind, Normalize(joiner)[1..])
  {
    hide Encoded, Decoded, Normalize, AsPrinted, Clean, PayloadText, Pretty, Base32.Encoded, Base32.Decoded, Base32.Canonical;
    var bytes := HostCode(kind, dial, host);
    CodeDecodes(kind, bytes);
    JoinerBytes(kind, bytes, joiner);
    var code, payload := Normalize(joiner), Normalize(joiner)[1..];
    PrintedIffCanonical(kind, payload);
    Base32.CanonicalIff(payload, bytes);
    assert code == [code[0]] + payload;
    assert ([Tag(kind)] + Base32.Encoded(bytes))[1..] == Base32.Encoded(bytes);
  }

  // ----- a code of each kind that is refused -----

  /** Two codes with the same tag and different payloads that decode alike: the second is refused. */
  lemma Refused(kind: Kind, bytes: seq<byte>, payload: string)
    requires |bytes| == Length(kind) && Clean(payload)
    requires payload != Base32.Encoded(bytes) && Base32.Decoded(payload, Length(kind)) == Ok(bytes)
    ensures var host, joiner := Pretty(Tag(kind), Base32.Encoded(bytes)), Pretty(Tag(kind), payload);
            Decoded(joiner) == Decoded(host) && !Accepts(host, joiner)
  {
    TextIsClean(bytes);
    Base32.RoundTrip(bytes);
    hide Decoded, Normalize, Pretty, Clean, Base32.Encoded, Base32.Decoded;
    PrettyDecodes(kind, payload);
    PrettyDecodes(kind, Base32.Encoded(bytes));
    assert ([Tag(kind)] + payload)[1..] == payload;
    assert ([Tag(kind)] + Base32.Encoded(bytes))[1..] == Base32.Encoded(bytes);
  }

  /** One character too many: every host's code with a letter of the alphabet appended. */
  lemma ExtraCharacterRefused(kind: Kind, bytes: seq<byte>, v: nat)
    requires |bytes| == Length(kind) && v < 32
    ensures var text := Base32.Encoded(bytes);
            var host, joiner := Pretty(Tag(kind), text), Pretty(Tag(kind), text + [Base32.ALPHABET[v]]);
            Decoded(joiner) == Decoded(host) && !Accepts(host, joiner)
  {
    hide Base32.Encoded, Base32.Decoded, Decoded, Pretty, Clean, LetterClean, Accepts;
    TextIsClean(bytes);
    LetterIsClean(v);
    CleanAppend(Base32.Encoded(bytes), Base32.ALPHABET[v]);
    Base32.ExtraIgnored(bytes, v);
    Refused(kind, bytes, Base32.Encoded(bytes) + [Base32.ALPHABET[v]]);
  }

  lemma CleanAppend(text: string, c: char)
    requires Clean(text) && LetterClean(c)
    ensures Clean(text + [c])
  {}

  /** A fill bit that is set: every host's code with its last letter replaced by the next. */
  lemma FillBitRefused(kind: Kind, bytes: seq<byte>)
    requires |bytes| == Length(kind)
    ensures var host, joiner := Pretty(Tag(kind), Base32.Encoded(bytes)), Pretty(Tag(kind), Base32.WithFillBit(bytes));
            Decoded(joiner) == Decoded(host) && !Accepts(host, joiner)
  {
    Base32.FillIgnored(bytes);
    FillBitText(bytes);
    hide Base32.Encoded, Base32.Decoded, Base32.WithFillBit, Decoded, Pretty;
    Refused(kind, bytes, Base32.WithFillBit(bytes));
  }

  lemma FillBitText(bytes: seq<byte>)
    requires bytes != [] && |bytes| % 5 != 0
    ensures Clean(Base32.WithFillBit(bytes)) && Base32.WithFillBit(bytes) != Base32.Encoded(bytes)
  {
    Base32.FillRoom(bytes);
    Base32.Fives();
    hide Base32.Symbols;
    var values := Base32.Symbols(bytes);
    var last := values[|values| - 1];
    var odd := values[..|values| - 1] + [last + 1];
    forall i | 0 <= i < |odd| ensures odd[i] < 32 && LetterClean(Base32.ALPHABET[odd[i]]) { LetterIsClean(odd[i]); }
    Base32.AlphabetOrdered(last);
    assert Base32.WithFillBit(bytes)[|values| - 1] != Base32.Encoded(bytes)[|values| - 1];
  }

  /** A substituted letter: the code of 0.0.0.0:1 written with a letter O. */
  lemma SubstitutedLetterRefused() returns (host: string, joiner: string)
    ensures Encoded(Lan, FormatSocket(Socket(0, 0, 0, 0, 1))) == Ok(host)
    ensures Decoded(joiner) == Decoded(host) && !Accepts(host, joiner)
  {
    var s := Socket(0, 0, 0, 0, 1);
    SocketRoundTrip(s);
    var bytes := SocketBytes(s);
    assert |bytes| == 6 && bytes[0] == 0;
    hide SocketBytes, FormatSocket, ParseSocket, Decoded, Normalize, Pretty, Base32.Encoded;
    host := Pretty(Tag(Lan), Base32.Encoded(bytes));
    joiner := Pretty(Tag(Lan), WithLetterO(Base32.Encoded(bytes)));
    FoldedPair(bytes);
  }

  function WithLetterO(text: string): string { if text == "" then "" else ['O'] + text[1..] }

  lemma FoldedPair(bytes: seq<byte>)
    requires |bytes| == Length(Lan) && bytes[0] == 0
    ensures var text := Base32.Encoded(bytes);
            var host, joiner := Pretty(Tag(Lan), text), Pretty(Tag(Lan), WithLetterO(text));
            Decoded(joiner) == Decoded(host) && !Accepts(host, joiner)
  {
    hide Decoded, Pretty, Clean, Accepts, WithLetterO, Base32.Encoded, Base32.Decoded, Base32.Fold, Base32.Symbolic;
    var text := Base32.Encoded(bytes);
    TextIsClean(bytes);
    FirstIsZero(bytes);
    LetterOFolds(text);
    Base32.FoldInvariant(WithLetterO(text), text, Length(Lan));
    Base32.RoundTrip(bytes);
    Refused(Lan, bytes, WithLetterO(text));
  }

  lemma LetterOFolds(text: string)
    requires text != "" && text[0] == '0' && Clean(text)
    ensures var other := WithLetterO(text);
            && other != text && |other| == |text| && Clean(other)
            && forall i | 0 <= i < |text| :: Base32.Fold(other[i]) == Base32.Fold(text[i])
  {
    assert Base32.Fold('O') == '0' == Base32.Fold('0') && Base32.Upper('O') == 'O';
    assert WithLetterO(text)[0] == 'O';
  }

  /** A payload that starts with a zero byte starts with the digit 0. */
  lemma FirstIsZero(bytes: seq<byte>)
    requires bytes != [] && bytes[0] == 0
    ensures |Base32.Encoded(bytes)| > 0 && Base32.Encoded(bytes)[0] == '0'
  {
    Base32.Fives();
    Base32.RoundTrip(bytes);
    var b := Base32.Spread(bytes, 8);
    Base32.SpreadLength(bytes);
    Base32.ZeroBits(8);
    assert b[..8] == Base32.Bits(0, 8);
    var all := b + Base32.Zeros(Base32.Padding(8 * |bytes|));
    assert all[..5] == Base32.Zeros(5);
    Base32.ZerosVal(5);
  }
}
