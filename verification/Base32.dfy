/** The base32 printer and parser of the room codes (core/src/roomcode.rs): the bit packing of
    section 6 of RFC 4648 without padding, Crockford's alphabet, and the 32-bit accumulator whose
    stale high bits are shifted out. */
module Base32 {
  import opened Bytes

  const ALPHABET := "0123456789ABCDEFGHJKMNPQRSTVWXYZ"

  // ----- bits -----

  function Pow2(k: nat): (p: nat)
    ensures p > 0
  {
    if k == 0 then 1 else 2 * Pow2(k - 1)
  }

  /** The low `k` bits of `n`, most significant first. */
  function Bits(n: nat, k: nat): (b: seq<bool>)
    ensures |b| == k
  {
    if k == 0 then [] else Bits(n / 2, k - 1) + [n % 2 == 1]
  }

  function Val(b: seq<bool>): (n: nat)
    ensures n < Pow2(|b|)
  {
    if b == [] then 0 else 2 * Val(b[..|b| - 1]) + if b[|b| - 1] then 1 else 0
  }

  lemma {:induction false} ValBits(n: nat, k: nat)
    requires n < Pow2(k)
    ensures Val(Bits(n, k)) == n
  {
    if k > 0 {
      ValBits(n / 2, k - 1);
      assert Bits(n, k)[..k - 1] == Bits(n / 2, k - 1);
    }
  }

  lemma {:induction false} BitsVal(b: seq<bool>)
    ensures Bits(Val(b), |b|) == b
  {
    if b != [] {
      BitsVal(b[..|b| - 1]);
      assert Val(b) / 2 == Val(b[..|b| - 1]);
    }
  }

  /** A product the solver need not look into. */
  function Times(a: nat, b: nat): nat { a * b }

  lemma TimesTwice(a: nat, b: nat)
    ensures Times(a, 2 * b) == 2 * Times(a, b)
  {}

  lemma TimesOne(a: nat)
    ensures Times(a, 1) == a
  {}

  lemma {:induction false} ValAppend(x: seq<bool>, y: seq<bool>)
    ensures Val(x + y) == Times(Val(x), Pow2(|y|)) + Val(y)
  {
    hide Times;
    if y == [] {
      assert x + y == x;
      TimesOne(Val(x));
    } else {
      var front := y[..|y| - 1];
      ValAppend(x, front);
      assert (x + y)[..|x + y| - 1] == x + front;
      TimesTwice(Val(x), Pow2(|front|));
    }
  }

  // ----- the specification -----

  /** Each value as `w` bits, one after the other. */
  function Spread(values: seq<nat>, w: nat): seq<bool> {
    if values == [] then [] else Bits(values[0], w) + Spread(values[1..], w)
  }

  /** The values of consecutive groups of `w` bits; an incomplete group at the end is dropped. */
  function Packed(b: seq<bool>, w: nat): (values: seq<nat>)
    requires w > 0
    ensures forall i | 0 <= i < |values| :: values[i] < Pow2(w)
    decreases |b|
  {
    if |b| < w then [] else [Val(b[..w])] + Packed(b[w..], w)
  }

  lemma PackedGroup(group: seq<bool>, rest: seq<bool>, w: nat)
    requires w > 0 && |group| == w
    ensures Packed(group + rest, w) == [Val(group)] + Packed(rest, w)
  {
    assert (group + rest)[..w] == group && (group + rest)[w..] == rest;
  }

  /** Unpacking what was spread out gives the values back, and then whatever the tail holds. */
  lemma {:induction false} PackedSpread(values: seq<nat>, tail: seq<bool>, w: nat)
    requires w > 0 && forall i | 0 <= i < |values| :: values[i] < Pow2(w)
    ensures Packed(Spread(values, w) + tail, w) == values + Packed(tail, w)
    ensures |tail| < w ==> Packed(Spread(values, w) + tail, w) == values
  {
    if values == [] {
      assert Spread(values, w) + tail == tail;
    } else {
      PackedSpread(values[1..], tail, w);
      ValBits(values[0], w);
      var rest := Spread(values[1..], w) + tail;
      assert Spread(values, w) + tail == Bits(values[0], w) + rest;
      PackedGroup(Bits(values[0], w), rest, w);
      hide Packed, Spread, Bits;
      assert values == [values[0]] + values[1..];
    }
  }

  /** Spreading out what was packed gives the bits back, if they fill whole symbols. */
  lemma {:induction false} SpreadPacked(b: seq<bool>)
    requires |b| % 5 == 0
    ensures Spread(Packed(b, 5), 5) == b && |Packed(b, 5)| == |b| / 5
    decreases |b|
  {
    if b != [] {
      SpreadPacked(b[5..]);
      BitsVal(b[..5]);
      assert b == b[..5] + b[5..];
      assert Packed(b, 5)[1..] == Packed(b[5..], 5);
    }
  }

  lemma {:induction false} SpreadLength(values: seq<nat>)
    ensures |Spread(values, 8)| == 8 * |values| && |Spread(values, 5)| == 5 * |values|
  {
    if values != [] { SpreadLength(values[1..]); }
  }

  function Zeros(n: nat): seq<bool> { seq(n, i => false) }

  /** How many zero bits fill up the last symbol. */
  function Padding(bits: nat): (n: nat)
    ensures n < 5 && (bits + n) % 5 == 0
  {
    (5 - bits % 5) % 5
  }

  /** The 5-bit symbols of `data`. */
  function Symbols(data: seq<byte>): seq<nat> { Packed(Spread(data, 8) + Zeros(Padding(8 * |data|)), 5) }

  /** The whole bytes in a run of 5-bit symbols; up to 7 bits are left over. */
  function Octets(values: seq<nat>): seq<nat> { Packed(Spread(values, 5), 8) }

  function Upper(c: char): char { if 'a' <= c <= 'z' then c - 32 as char else c }

  /** Crockford's substitutions. */
  function Fold(c: char): char {
    match Upper(c)
    case 'I' => '1'
    case 'L' => '1'
    case 'O' => '0'
    case other => other
  }

  function Position(s: string, c: char): (i: Option<nat>)
    ensures i.Some? <==> c in s
    ensures i.Some? ==> i.value < |s| && s[i.value] == c
  {
    if s == "" then None
    else if s[0] == c then Some(0)
    else match Position(s[1..], c) case None => None case Some(i) => Some(i + 1)
  }

  /** `b32_value`. */
  function Symbol(c: char): (v: Option<nat>)
    ensures v.Some? ==> v.value < 32
  {
    Position(ALPHABET, Fold(c))
  }

  function Text(values: seq<nat>): (s: string)
    requires forall i | 0 <= i < |values| :: values[i] < 32
    ensures |s| == |values| && forall i | 0 <= i < |s| :: s[i] == ALPHABET[values[i]]
  {
    seq(|values|, i requires 0 <= i < |values| => ALPHABET[values[i]])
  }

  /** The symbols of a text, unless one of its characters is none. */
  function Symbolic(s: string): (v: Option<seq<nat>>)
    ensures v.Some? ==> |v.value| == |s|
  {
    if s == "" then Some([]) else
    var (first, rest) := (Symbol(s[0]), Symbolic(s[1..]));
    if first.Some? && rest.Some? then Some([first.value] + rest.value) else None
  }

  datatype Fault = BadCharacter | TooShort

  function Encoded(data: seq<byte>): string {
    Fives();
    Text(Symbols(data))
  }

  function Decoded(s: string, expected: nat): Result<seq<nat>, Fault> {
    match Symbolic(s)
    case None => Err(BadCharacter)
    case Some(values) =>
      if |Octets(values)| < expected then Err(TooShort) else Ok(Octets(values)[..expected])
  }

  lemma Fives()
    ensures Pow2(5) == 32 && Pow2(8) == 256
  {
    assert Pow2(3) == 8;
    assert Pow2(5) == 4 * Pow2(3);
    assert Pow2(8) == 8 * Pow2(5);
  }

  // ----- the round trip -----

  /** The alphabet is in increasing order and unaffected by case folding and substitution. */
  lemma AlphabetOrdered(v: nat)
    requires v < 32
    ensures Fold(ALPHABET[v]) == ALPHABET[v]
    ensures v < 31 ==> ALPHABET[v] < ALPHABET[v + 1]
  {}

  lemma {:induction false} AlphabetDistinct(i: nat, j: nat)
    requires i < j < 32
    ensures ALPHABET[i] < ALPHABET[j]
  {
    AlphabetOrdered(j - 1);
    if i < j - 1 { AlphabetDistinct(i, j - 1); }
  }

  lemma SymbolOfLetter(v: nat)
    requires v < 32
    ensures Symbol(ALPHABET[v]) == Some(v)
  {
    AlphabetOrdered(v);
    var i := Position(ALPHABET, ALPHABET[v]);
    assert ALPHABET[v] in ALPHABET;
    if i.value < v { AlphabetDistinct(i.value, v); }
    if v < i.value { AlphabetDistinct(v, i.value); }
  }

  lemma {:induction false} SymbolicText(values: seq<nat>)
    requires forall i | 0 <= i < |values| :: values[i] < 32
    ensures Symbolic(Text(values)) == Some(values)
  {
    hide Symbol, Fold, Position;
    if values != [] {
      var rest := values[1..];
      SymbolicText(rest);
      SymbolOfLetter(values[0]);
      assert values == [values[0]] + rest;
      assert Text(values)[1..] == Text(rest);
    }
  }

  /** Packing into symbols and back gives exactly the bytes: the fill is never mistaken for one. */
  lemma OctetsOfSymbols(data: seq<byte>)
    ensures Octets(Symbols(data)) == data && |Symbols(data)| == (8 * |data| + 4) / 5
  {
    var b, pad := Spread(data, 8), Zeros(Padding(8 * |data|));
    SpreadLength(data);
    SpreadPacked(b + pad);
    Fives();
    PackedSpread(data, pad, 8);
  }

  lemma {:induction false} SpreadAt8(values: seq<nat>, k: nat)
    requires k < 8 * |values|
    ensures |Spread(values, 8)| == 8 * |values| && Spread(values, 8)[k] == Bits(values[k / 8], 8)[k % 8]
  {
    hide Bits;
    SpreadLength(values);
    assert Spread(values, 8) == Bits(values[0], 8) + Spread(values[1..], 8);
    if k >= 8 { SpreadAt8(values[1..], k - 8); }
  }

  lemma {:induction false} SpreadAt5(values: seq<nat>, k: nat)
    requires k < 5 * |values|
    ensures |Spread(values, 5)| == 5 * |values| && Spread(values, 5)[k] == Bits(values[k / 5], 5)[k % 5]
  {
    hide Bits;
    SpreadLength(values);
    assert Spread(values, 5) == Bits(values[0], 5) + Spread(values[1..], 5);
    if k >= 5 { SpreadAt5(values[1..], k - 5); }
  }

  /** The packing of RFC 4648, bit by bit: bit k of the symbols is bit k of the data, most significant
      first, and the fill is zero. */
  lemma BitForBit(data: seq<byte>, k: nat)
    requires k < 5 * |Symbols(data)|
    ensures Bits(Symbols(data)[k / 5], 5)[k % 5] == (k < 8 * |data| && Bits(data[k / 8], 8)[k % 8])
  {
    hide Bits, Padding;
    var b, pad := Spread(data, 8), Zeros(Padding(8 * |data|));
    SpreadLength(data);
    SpreadPacked(b + pad);
    SpreadAt5(Symbols(data), k);
    if k < 8 * |data| { SpreadAt8(data, k); }
  }

  /** For byte strings of every length: the text decodes to them, has exactly ceil(8n/5) characters,
      and yields n bytes before truncation. */
  lemma RoundTrip(data: seq<byte>)
    ensures Decoded(Encoded(data), |data|) == Ok(data)
    ensures |Encoded(data)| == (8 * |data| + 4) / 5
    ensures Symbolic(Encoded(data)).Some? && |Octets(Symbolic(Encoded(data)).value)| == |data|
  {
    Fives();
    SymbolicText(Symbols(data));
    OctetsOfSymbols(data);
    assert data[..|data|] == data;
  }

  // ----- which texts decode to given bytes -----

  lemma {:induction false} SpreadAppend(values: seq<nat>, v: nat, w: nat)
    ensures Spread(values + [v], w) == Spread(values, w) + Bits(v, w)
  {
    hide Bits;
    if values == [] {
      assert [v][1..] == [] && Spread([v], w) == Bits(v, w) + [];
    } else {
      SpreadAppend(values[1..], v, w);
      assert (values + [v])[1..] == values[1..] + [v];
    }
  }

  /** Whole bytes unpacked and spread out again are the bits they came from. */
  lemma {:induction false} SpreadOctets(b: seq<bool>)
    ensures |Packed(b, 8)| == |b| / 8
    ensures Spread(Packed(b, 8), 8) == b[..8 * (|b| / 8)]
    decreases |b|
  {
    hide Bits, Val;
    if |b| >= 8 {
      SpreadOctets(b[8..]);
      BitsVal(b[..8]);
      assert Packed(b, 8)[1..] == Packed(b[8..], 8);
      assert b[..8 * (|b| / 8)] == b[..8] + b[8..][..8 * (|b[8..]| / 8)];
    }
  }

  lemma {:induction false} ValZero(b: seq<bool>)
    ensures Val(b) == 0 <==> b == Zeros(|b|)
  {
    if b != [] {
      ValZero(b[..|b| - 1]);
      assert Zeros(|b|)[..|b| - 1] == Zeros(|b| - 1);
      assert b == b[..|b| - 1] + [b[|b| - 1]];
    }
  }

  /** How many fill bits the text of `n` bytes ends in, and what the last symbol must be a multiple of. */
  function Fill(n: nat): nat { Pow2(Padding(8 * n)) }

  lemma FillBits(v: nat, pad: nat)
    requires v < 32 && pad < 5
    ensures v % Pow2(pad) == 0 <==> Bits(v, 5)[5 - pad..] == Zeros(pad)
  {
    Fives();
    var b := Bits(v, 5);
    ValBits(v, 5);
    var top, low := b[..5 - pad], b[5 - pad..];
    assert top + low == b;
    ValAppend(top, low);
    ValZero(low);
    hide Bits, Val;
    assert v == Pow2(pad) * Val(top) + Val(low);
    RemainderUnique(v, Pow2(pad), Val(top), Val(low));
  }

  /** The text of `n` bytes has room for their bits and the fill. */
  lemma TextRoom(n: nat)
    ensures 5 * ((8 * n + 4) / 5) == 8 * n + Padding(8 * n)
    ensures (8 * n + Padding(8 * n)) / 8 == n
  {}

  lemma LastBits(values: seq<nat>)
    requires values != []
    ensures var b, k := Spread(values, 5), 5 * (|values| - 1);
            |b| == k + 5 && b[k..] == Bits(values[|values| - 1], 5) && b[..k] == Spread(values[..|values| - 1], 5)
  {
    var front, last := values[..|values| - 1], values[|values| - 1];
    SpreadLength(front);
    SpreadAppend(front, last, 5);
    hide Spread, Bits;
    assert values == front + [last];
  }

  /** The fill bits of a text of symbols are the low bits of the last one. */
  lemma FillOf(values: seq<nat>, n: nat)
    requires n > 0 && |values| == (8 * n + 4) / 5 && values[|values| - 1] < 32
    ensures |Spread(values, 5)| == 8 * n + Padding(8 * n)
    ensures values[|values| - 1] % Fill(n) == 0 <==> Spread(values, 5)[8 * n..] == Zeros(Padding(8 * n))
  {
    hide Spread, Bits, Pow2, Padding;
    var b, pad, last := Spread(values, 5), Padding(8 * n), values[|values| - 1];
    TextRoom(n);
    LastBits(values);
    FillBits(last, pad);
    assert b[8 * n..] == b[5 * (|values| - 1)..][5 - pad..];
  }

  /** Symbols of the right number that unpack to `data` and end in zero fill are the symbols of `data`. */
  lemma CanonicalSymbols(values: seq<nat>, data: seq<byte>)
    requires data != [] && |values| == (8 * |data| + 4) / 5 && forall i | 0 <= i < |values| :: values[i] < 32
    requires Octets(values) == data && values[|values| - 1] % Fill(|data|) == 0
    ensures values == Symbols(data)
  {
    hide Spread, Bits, Pow2, Padding, Packed, Fill;
    var b, n := Spread(values, 5), |data|;
    Fives();
    TextRoom(n);
    FillOf(values, n);
    SpreadOctets(b);
    PackedSpread(values, [], 5);
    assert b + [] == b;
    assert b == b[..8 * n] + b[8 * n..];
  }

  /** The symbols of `data` end in zero fill. */
  lemma SymbolsFill(data: seq<byte>)
    requires data != []
    ensures |Symbols(data)| == (8 * |data| + 4) / 5 && Symbols(data)[|Symbols(data)| - 1] < 32
    ensures Symbols(data)[|Symbols(data)| - 1] % Fill(|data|) == 0
    ensures Spread(Symbols(data), 5) == Spread(data, 8) + Zeros(Padding(8 * |data|))
  {
    hide Spread, Bits, Pow2, Padding, Packed, Fill;
    var b, pad := Spread(data, 8), Padding(8 * |data|);
    Fives();
    OctetsOfSymbols(data);
    SpreadLength(data);
    SpreadPacked(b + Zeros(pad));
    FillOf(Symbols(data), |data|);
    assert (b + Zeros(pad))[8 * |data|..] == Zeros(pad);
  }

  lemma {:induction false} SymbolicAt(s: string, i: nat)
    requires i < |s| && Symbolic(s).Some?
    ensures Symbol(s[i]) == Some(Symbolic(s).value[i])
  {
    hide Symbol;
    if i > 0 { SymbolicAt(s[1..], i - 1); }
  }

  /** A text no character of which is changed by folding spells its symbols. */
  lemma TextOfSymbolic(s: string)
    requires Symbolic(s).Some? && forall i | 0 <= i < |s| :: Fold(s[i]) == s[i]
    ensures (forall i | 0 <= i < |s| :: Symbolic(s).value[i] < 32) && Text(Symbolic(s).value) == s
  {
    hide Symbolic, Fold;
    var values := Symbolic(s).value;
    forall i | 0 <= i < |s| ensures values[i] < 32 && ALPHABET[values[i]] == s[i] {
      SymbolicAt(s, i);
      SymbolSpells(s[i]);
    }
  }

  lemma SymbolSpells(c: char)
    requires Symbol(c).Some? && Fold(c) == c
    ensures ALPHABET[Symbol(c).value] == c
  {
    hide Fold;
  }

  lemma EncodedFolds(data: seq<byte>, i: nat)
    requires i < |Encoded(data)|
    ensures Fold(Encoded(data)[i]) == Encoded(data)[i]
  {
    Fives();
    AlphabetOrdered(Symbols(data)[i]);
  }

  /** No character is changed by folding, and the fill bits of the text of `n` bytes are zero. */
  ghost predicate Canonical(s: string, n: nat) {
    && |s| == (8 * n + 4) / 5 > 0
    && (forall i | 0 <= i < |s| :: Fold(s[i]) == s[i])
    && Symbol(s[|s| - 1]).Some? && Symbol(s[|s| - 1]).value % Fill(n) == 0
  }

  lemma EncodedCanonical(data: seq<byte>)
    requires data != []
    ensures Canonical(Encoded(data), |data|)
  {
    hide Fold, Fill, Symbol, Symbols, Symbolic, Encoded, Padding, Spread;
    var s := Encoded(data);
    SymbolsFill(data);
    EncodedSymbolic(data);
    forall i | 0 <= i < |s| ensures Fold(s[i]) == s[i] { EncodedFolds(data, i); }
    SymbolicAt(s, |s| - 1);
  }

  lemma EncodedSymbolic(data: seq<byte>)
    ensures |Encoded(data)| == |Symbols(data)| && Symbolic(Encoded(data)) == Some(Symbols(data))
  {
    hide Symbolic, Symbols;
    SymbolsBelow(data);
    SymbolicText(Symbols(data));
  }

  /** A text that decodes to `data` is the one printed for it exactly when it has the printed length, no
      character that folding changes, and zero fill bits. */
  lemma CanonicalIff(s: string, data: seq<byte>)
    requires data != [] && Decoded(s, |data|) == Ok(data)
    ensures s == Encoded(data) <==> Canonical(s, |data|)
  {
    if s == Encoded(data) { EncodedCanonical(data); }
    if Canonical(s, |data|) { CanonicalEncoded(s, data); }
  }

  lemma CanonicalEncoded(s: string, data: seq<byte>)
    requires data != [] && Decoded(s, |data|) == Ok(data) && Canonical(s, |data|)
    ensures s == Encoded(data)
  {
    hide Symbolic, Symbol, Spread, Packed, Text, Fold, Symbols, Fill, Pow2, Padding;
    var values := Symbolic(s).value;
    TextOfSymbolic(s);
    SymbolicAt(s, |s| - 1);
    TextRoom(|data|);
    SpreadLength(values);
    SpreadOctets(Spread(values, 5));
    assert Octets(values)[..|data|] == Octets(values);
    CanonicalSymbols(values, data);
  }

  /** Symbols whose bits start with those of `data` decode to it. */
  lemma StartsWith(values: seq<nat>, data: seq<byte>, tail: seq<bool>)
    requires forall i | 0 <= i < |values| :: values[i] < 32
    requires Spread(values, 5) == Spread(data, 8) + tail
    ensures Decoded(Text(values), |data|) == Ok(data)
  {
    hide Symbolic, Spread, Packed, Text, Pow2;
    Fives();
    SymbolicText(values);
    PackedSpread(data, tail, 8);
    assert (data + Packed(tail, 8))[..|data|] == data;
  }

  /** A character too many is not noticed. */
  lemma ExtraIgnored(data: seq<byte>, v: nat)
    requires v < 32 && data != []
    ensures Decoded(Encoded(data) + [ALPHABET[v]], |data|) == Ok(data)
  {
    hide Decoded, Spread, Symbols, Padding, Bits, Text;
    Fives();
    var values, b, pad := Symbols(data), Spread(data, 8), Zeros(Padding(8 * |data|));
    SymbolsBelow(data);
    SymbolsFill(data);
    SpreadAppend(values, v, 5);
    TextAppend(values, v);
    assert (b + pad) + Bits(v, 5) == b + (pad + Bits(v, 5));
    StartsWith(values + [v], data, pad + Bits(v, 5));
  }

  lemma SymbolsBelow(data: seq<byte>)
    ensures forall i | 0 <= i < |Symbols(data)| :: Symbols(data)[i] < 32
  {
    hide Packed;
    Fives();
  }

  /** The text of `data` with its last fill bit set. */
  function WithFillBit(data: seq<byte>): string
    requires data != [] && |data| % 5 != 0
  {
    FillRoom(data);
    var values := Symbols(data);
    Text(values[..|values| - 1] + [values[|values| - 1] + 1])
  }

  lemma FillRoom(data: seq<byte>)
    requires data != [] && |data| % 5 != 0
    ensures var values := Symbols(data);
            && values != [] && values[|values| - 1] < 31 && values[|values| - 1] % 2 == 0
            && forall i | 0 <= i < |values| :: values[i] < 32
  {
    hide Symbols, Fill, Padding;
    SymbolsBelow(data);
    SymbolsFill(data);
    FillEven(|data|, Symbols(data)[|Symbols(data)| - 1]);
  }

  lemma FillEven(n: nat, v: nat)
    requires n % 5 != 0 && v % Fill(n) == 0 && v < 32
    ensures v % 2 == 0 && v < 31 && Padding(8 * n) > 0
  {
    assert Pow2(1) == 2 && Pow2(2) == 4 && Pow2(3) == 8 && Pow2(4) == 16;
  }

  /** A fill bit that is not zero is not noticed either. */
  lemma FillIgnored(data: seq<byte>)
    requires data != [] && |data| % 5 != 0
    ensures Decoded(WithFillBit(data), |data|) == Ok(data)
  {
    hide Decoded, Spread, Symbols, Bits, Text, Fill, Padding;
    FillRoom(data);
    SymbolsFill(data);
    var values, n, pad := Symbols(data), |data|, Padding(8 * |data|);
    var front, last := values[..|values| - 1], values[|values| - 1];
    FillEven(n, last);
    LastBits(values);
    SpreadAppend(front, last + 1, 5);
    SpreadLength(data);
    NextOdd(last, 5);
    TextRoom(n);
    var k := 5 * |front|;
    var odd := Spread(front + [last + 1], 5);
    assert odd[..8 * n] == Spread(values, 5)[..8 * n] by {
      assert 8 * n == k + (5 - pad);
      assert odd[..8 * n] == Spread(front, 5) + Bits(last + 1, 5)[..4][..5 - pad];
      assert Spread(values, 5)[..8 * n] == Spread(front, 5) + Bits(last, 5)[..4][..5 - pad];
    }
    assert odd == Spread(data, 8) + odd[8 * n..];
    StartsWith(front + [last + 1], data, odd[8 * n..]);
  }

  /** An even number and the next differ in the last bit only. */
  lemma NextOdd(v: nat, k: nat)
    requires v % 2 == 0 && k > 0
    ensures Bits(v + 1, k)[..k - 1] == Bits(v, k)[..k - 1]
  {
    assert (v + 1) / 2 == v / 2;
  }

  /** Only the folded characters matter. */
  lemma {:induction false} FoldInvariant(s: string, t: string, expected: nat)
    requires |s| == |t| && forall i | 0 <= i < |s| :: Fold(s[i]) == Fold(t[i])
    ensures Symbolic(s) == Symbolic(t) && Decoded(s, expected) == Decoded(t, expected)
  {
    if s != "" { FoldInvariant(s[1..], t[1..], expected); }
  }

  // ----- the 32-bit word -----

  function Shl(acc: nat, k: nat): nat { acc * Pow2(k) % U32 }

  function Quotient(n: nat, d: nat): nat
    requires d > 0
  {
    n / d
  }

  function Shr(acc: nat, k: nat): nat { Quotient(acc, Pow2(k)) }

  /** The low `k` bits of the accumulator: all that matters of it. */
  function Low(acc: nat, k: nat): nat { acc % Pow2(k) }

  predicate Small(p: nat) { p == 1 || p == 2 || p == 4 || p == 8 || p == 16 || p == 32 || p == 64 || p == 128 }

  lemma Pow2Next(k: nat)
    ensures Pow2(k + 1) == 2 * Pow2(k) && Pow2(k + 2) == 4 * Pow2(k)
  {
    assert Pow2(k + 2) == 2 * Pow2(k + 1);
  }

  lemma SmallPow(k: nat)
    requires k < 8
    ensures Small(Pow2(k)) && (k < 5 ==> Pow2(k) <= 16)
    ensures Pow2(k + 5) == 32 * Pow2(k) && Pow2(k + 8) == 256 * Pow2(k)
  {
    Pow2Next(0);
    Pow2Next(2);
    Pow2Next(4);
    Pow2Next(6);
    Pow2Next(k);
    Pow2Next(k + 2);
    Pow2Next(k + 4);
    Pow2Next(k + 6);
    Pow2Next(k + 7);
  }

  /** Shifting `v` into the low end of a 32-bit word keeps the low bits it holds, whatever falls off
      the top: the modulus divides 2^32. */
  lemma ShiftArithmetic(acc: nat, h: nat, p: nat, top: nat, v: nat)
    requires h > 0 && p > 0 && v < p && top * (h * p) == U32
    ensures (acc * p % U32 + v) % (h * p) == Times(acc % h, p) + v
  {
    var q, a, m := acc / h, acc % h, h * p;
    var k := acc * p / U32;
    var d := q - top * k;
    Quotients(acc, h, p, q, a);
    TopMultiple(top, m, k, acc * p);
    assert m * q - m * (top * k) == m * d;
    var r := acc * p % U32 + v;
    assert r == m * d + (a * p + v);
    assert a * p + v < m by { Multiples(p, a, h); }
    Nonnegative(m, d, a * p + v);
    RemainderUnique(r, m, d, a * p + v);
  }

  lemma Quotients(acc: nat, h: nat, p: nat, q: nat, a: nat)
    requires h > 0 && q == acc / h && a == acc % h
    ensures acc * p == (h * p) * q + a * p
  {
    assert acc == h * q + a;
    assert (h * q + a) * p == (h * q) * p + a * p;
    Reassociate(h, q, p);
    Reassociate(h, p, q);
  }

  lemma TopMultiple(top: nat, m: nat, k: nat, x: nat)
    requires top * m == U32 && k == x / U32
    ensures x % U32 == x - m * (top * k)
  {
    Reassociate(top, m, k);
  }

  lemma Reassociate(g: int, p: int, q: int)
    ensures (g * p) * q == p * (g * q) == (g * q) * p
  {}

  lemma Nonnegative(m: nat, d: int, s: nat)
    requires s < m && m * d + s >= 0
    ensures d >= 0
  {
    Multiples(m, d, 0);
  }

  /** What is missing to 2^32. */
  function Complement(h: nat, p: nat): nat
    requires h > 0 && p > 0
  {
    Quotient(Quotient(U32, h), p)
  }

  lemma ComplementSmall(h: nat, p: nat)
    requires Small(h) && (p == 2 || p == 4 || p == 8 || p == 16 || p == 32 || (p == 256 && h <= 16))
    ensures Complement(h, p) * (h * p) == U32
  {
    if h == 1 { Factor1(p); } else if h == 2 { Factor2(p); } else if h == 4 { Factor4(p); } else if h == 8 { Factor8(p); }
    else if h == 16 { Factor16(p); } else if h == 32 { Factor32(p); } else if h == 64 { Factor64(p); } else { Factor128(p); }
  }

  lemma Factor1(p: nat)
    requires p == 2 || p == 4 || p == 8 || p == 16 || p == 32 || p == 256
    ensures Complement(1, p) * (1 * p) == U32
  {}

  lemma Factor2(p: nat)
    requires p == 2 || p == 4 || p == 8 || p == 16 || p == 32 || p == 256
    ensures Complement(2, p) * (2 * p) == U32
  {}

  lemma Factor4(p: nat)
    requires p == 2 || p == 4 || p == 8 || p == 16 || p == 32 || p == 256
    ensures Complement(4, p) * (4 * p) == U32
  {}

  lemma Factor8(p: nat)
    requires p == 2 || p == 4 || p == 8 || p == 16 || p == 32 || p == 256
    ensures Complement(8, p) * (8 * p) == U32
  {}

  lemma Factor16(p: nat)
    requires p == 2 || p == 4 || p == 8 || p == 16 || p == 32 || p == 256
    ensures Complement(16, p) * (16 * p) == U32
  {}

  lemma Factor32(p: nat)
    requires p == 2 || p == 4 || p == 8 || p == 16 || p == 32
    ensures Complement(32, p) * (32 * p) == U32
  {}

  lemma Factor64(p: nat)
    requires p == 2 || p == 4 || p == 8 || p == 16 || p == 32
    ensures Complement(64, p) * (64 * p) == U32
  {}

  lemma Factor128(p: nat)
    requires p == 2 || p == 4 || p == 8 || p == 16 || p == 32
    ensures Complement(128, p) * (128 * p) == U32
  {}

  lemma Shift(acc: nat, h: nat, p: nat, v: nat)
    requires Small(h) && v < p && (p == 2 || p == 4 || p == 8 || p == 16 || p == 32 || (p == 256 && h <= 16))
    ensures (acc * p % U32 + v) % (h * p) == Times(acc % h, p) + v
  {
    ComplementSmall(h, p);
    hide Complement;
    ShiftArithmetic(acc, h, p, Complement(h, p), v);
  }

  lemma Split(acc: nat, g: nat, p: nat, v: nat, w: nat)
    requires g > 0 && p > 0 && v < g && w < p && acc % (g * p) == Times(v, p) + w
    ensures acc / p % g == v && acc % p == w
  {
    var q := acc / (g * p);
    SplitSum(acc, g, p, v, w, q);
    RemainderUnique(acc, p, g * q + v, w);
    RemainderUnique(g * q + v, g, q, v);
  }

  lemma SplitSum(acc: nat, g: nat, p: nat, v: nat, w: nat, q: nat)
    requires g > 0 && p > 0 && acc % (g * p) == Times(v, p) + w && q == acc / (g * p)
    ensures acc == p * (g * q + v) + w
  {
    assert acc == (g * p) * q + (v * p + w);
    Regroup(g, p, q, v);
  }

  lemma Regroup(g: nat, p: nat, q: nat, v: nat)
    ensures (g * p) * q + v * p == p * (g * q + v)
  {
    Reassociate(g, p, q);
    assert p * (g * q + v) == p * (g * q) + p * v;
  }

  /** The shifts that occur: a byte, a symbol, or up to a whole symbol. */
  predicate Shifts(k: nat, w: nat) { (w == 5 && k < 8) || (w == 8 && k < 5) || (1 <= w < 5 && k == 5 - w) }

  lemma ShiftFactors(k: nat, w: nat)
    requires Shifts(k, w)
    ensures var h, p := Pow2(k), Pow2(w);
            && Small(h) && (p == 2 || p == 4 || p == 8 || p == 16 || p == 32 || (p == 256 && h <= 16))
            && Pow2(k + w) == Times(h, p)
  {
    Fives();
    SmallPow(k);
    Pow2Next(0);
    Pow2Next(2);
  }

  lemma LowShift(acc: nat, k: nat, w: nat, v: nat)
    requires Shifts(k, w) && v < Pow2(w)
    ensures Low(Shl(acc, w) + v, k + w) == Times(Low(acc, k), Pow2(w)) + v
  {
    ShiftFactors(k, w);
    var h, p := Pow2(k), Pow2(w);
    hide Pow2, Small;
    assert Times(h, p) == h * p;
    hide Times;
    Shift(acc, h, p, v);
  }

  lemma LowSplit(acc: nat, k: nat, w: nat, v: nat, rest: nat)
    requires k < 8 && (w == 5 || w == 8) && v < Pow2(w) && rest < Pow2(k)
    requires Low(acc, k + w) == Times(v, Pow2(k)) + rest
    ensures Shr(acc, k) % Pow2(w) == v && Low(acc, k) == rest
  {
    Fives();
    SmallPow(k);
    var g, p := Pow2(w), Pow2(k);
    assert Pow2(k + w) == g * p;
    hide Times, Pow2;
    Split(acc, g, p, v, rest);
  }

  /** Shifting in a byte or a symbol: what is lost at the top of the word was stale. */
  lemma ShiftIn(acc: nat, held: seq<bool>, v: nat, w: nat)
    requires (w == 5 && |held| < 8) || (w == 8 && |held| < 5)
    requires Low(acc, |held|) == Val(held) && v < Pow2(w)
    ensures Low(Shl(acc, w) + v, |held| + w) == Val(held + Bits(v, w))
  {
    ValBits(v, w);
    ValAppend(held, Bits(v, w));
    LowShift(acc, |held|, w, v);
  }

  /** Emitting a group: the top of the held bits goes out, the rest stays. */
  lemma Emit(acc: nat, held: seq<bool>, w: nat)
    requires (w == 5 || w == 8) && w <= |held| < w + 8 && Low(acc, |held|) == Val(held)
    ensures Shr(acc, |held| - w) % Pow2(w) == Val(held[..w]) && Low(acc, |held| - w) == Val(held[w..])
  {
    assert held[..w] + held[w..] == held;
    ValAppend(held[..w], held[w..]);
    LowSplit(acc, |held| - w, w, Val(held[..w]), Val(held[w..]));
  }

  // ----- the loops -----

  /** The symbols still to come: from the bits held, the bytes not yet read and the fill. */
  function ToCome(held: seq<bool>, rest: seq<byte>, pad: seq<bool>): seq<nat> {
    Packed(held + Spread(rest, 8) + pad, 5)
  }

  lemma NextByte(held: seq<bool>, rest: seq<byte>, pad: seq<bool>)
    requires rest != []
    ensures ToCome(held, rest, pad) == ToCome(held + Bits(rest[0], 8), rest[1..], pad)
  {
    assert held + Spread(rest, 8) == (held + Bits(rest[0], 8)) + Spread(rest[1..], 8);
  }

  lemma NextGroup(held: seq<bool>, rest: seq<byte>, pad: seq<bool>)
    requires |held| >= 5
    ensures ToCome(held, rest, pad) == [Val(held[..5])] + ToCome(held[5..], rest, pad)
  {
    var more := Spread(rest, 8) + pad;
    assert held + Spread(rest, 8) + pad == held[..5] + (held[5..] + more);
    PackedGroup(held[..5], held[5..] + more, 5);
    assert held[5..] + Spread(rest, 8) + pad == held[5..] + more;
  }

  lemma TextAppend(sent: seq<nat>, v: nat)
    requires v < 32 && forall j | 0 <= j < |sent| :: sent[j] < 32
    ensures Text(sent + [v]) == Text(sent) + [ALPHABET[v]]
  {}

  /** Half-way through printing, after `i` bytes. */
  ghost predicate Printing(data: seq<byte>, i: nat, acc: nat, held: seq<bool>, sent: seq<nat>, out: string) {
    && i <= |data| && Low(acc, |held|) == Val(held) && 5 * |sent| + |held| == 8 * i
    && (forall j | 0 <= j < |sent| :: sent[j] < 32) && out == Text(sent)
    && Symbols(data) == sent + ToCome(held, data[i..], Zeros(Padding(8 * |data|)))
  }

  lemma PrintByte(data: seq<byte>, i: nat, acc: nat, held: seq<bool>, sent: seq<nat>, out: string)
    requires Printing(data, i, acc, held, sent, out) && i < |data| && |held| < 5
    ensures Printing(data, i + 1, Shl(acc, 8) + data[i], held + Bits(data[i], 8), sent, out)
  {
    hide Low, Shl, Text, ToCome, Symbols, Padding, Val, Pow2, Bits;
    Fives();
    ShiftIn(acc, held, data[i], 8);
    NextByte(held, data[i..], Zeros(Padding(8 * |data|)));
    assert data[i..][1..] == data[i + 1..];
  }

  lemma PrintSymbol(data: seq<byte>, i: nat, acc: nat, held: seq<bool>, sent: seq<nat>, out: string)
    requires Printing(data, i, acc, held, sent, out) && 5 <= |held| < 13
    ensures var v := Shr(acc, |held| - 5) % 32;
            Printing(data, i, acc, held[5..], sent + [v], out + [ALPHABET[v]])
  {
    hide Low, Shr, Text, ToCome, Symbols, Padding, Val, Pow2;
    Fives();
    Emit(acc, held, 5);
    NextGroup(held, data[i..], Zeros(Padding(8 * |data|)));
    TextAppend(sent, Val(held[..5]));
  }

  lemma PrintLast(data: seq<byte>, acc: nat, held: seq<bool>, sent: seq<nat>, out: string)
    requires Printing(data, |data|, acc, held, sent, out) && |held| < 5
    ensures Encoded(data) == if |held| == 0 then out else out + [ALPHABET[Shl(acc, 5 - |held|) % 32]]
  {
    hide Low, Shl, Text, ToCome, Symbols, Padding, Val, Pow2, Packed, Spread, Bits, Encoded;
    var pad := Zeros(Padding(8 * |data|));
    assert data[|data|..] == [] && (|held| + |pad|) % 5 == 0;
    LastSymbol(acc, held, pad);
    Spelled(data, sent, Shl(acc, 5 - |held|) % 32);
  }

  lemma Spelled(data: seq<byte>, sent: seq<nat>, v: nat)
    requires v < 32 && forall j | 0 <= j < |sent| :: sent[j] < 32
    ensures Symbols(data) == sent + [] ==> Encoded(data) == Text(sent)
    ensures Symbols(data) == sent + [v] ==> Encoded(data) == Text(sent) + [ALPHABET[v]]
  {
    hide Symbols, Text, Pow2;
    Fives();
    assert sent + [] == sent;
    TextAppend(sent, v);
  }

  /** `b32_encode`. */
  method Encode(data: seq<byte>) returns (out: string)
    ensures out == Encoded(data)
  {
    hide Printing, Shl, Shr;
    ghost var held: seq<bool> := [];
    ghost var sent: seq<nat> := [];
    out := "";
    var acc: nat, bits: nat := 0, 0;
    StartEncode(data);
    for i := 0 to |data|
      invariant bits == |held| < 5 && Printing(data, i, acc, held, sent, out)
    {
      PrintByte(data, i, acc, held, sent, out);
      acc := Shl(acc, 8) + data[i];
      bits := bits + 8;
      held := held + Bits(data[i], 8);
      while bits >= 5
        invariant bits == |held| < 13 && Printing(data, i + 1, acc, held, sent, out)
      {
        PrintSymbol(data, i + 1, acc, held, sent, out);
        bits := bits - 5;
        var v := Shr(acc, bits) % 32;
        out := out + [ALPHABET[v]];
        sent, held := sent + [v], held[5..];
      }
    }
    PrintLast(data, acc, held, sent, out);
    if bits > 0 { out := out + [ALPHABET[Shl(acc, 5 - bits) % 32]]; }
  }

  lemma StartEncode(data: seq<byte>)
    ensures Printing(data, 0, 0, [], [], "")
  {
    assert data[0..] == data;
    assert [] + Spread(data, 8) == Spread(data, 8);
  }

  /** The bits left over, shifted up, are the last symbol. */
  lemma LastSymbol(acc: nat, held: seq<bool>, pad: seq<bool>)
    requires |held| < 5 && |pad| < 5 && (|held| + |pad|) % 5 == 0 && pad == Zeros(|pad|) && Low(acc, |held|) == Val(held)
    ensures ToCome(held, [], pad) == if |held| == 0 then [] else [Shl(acc, 5 - |held|) % 32]
  {
    hide *;
    NothingToCome(held, pad);
    if |held| > 0 {
      FiveBits(held + pad);
      LastValue(acc, held, pad);
    }
  }

  lemma NothingToCome(held: seq<bool>, pad: seq<bool>)
    ensures ToCome(held, [], pad) == Packed(held + pad, 5)
    ensures |held| == 0 && |pad| == 0 ==> Packed(held + pad, 5) == []
  {
    assert held + Spread([], 8) + pad == held + pad;
  }

  lemma FiveBits(b: seq<bool>)
    requires |b| == 5
    ensures Packed(b, 5) == [Val(b)]
  {
    PackedGroup(b, [], 5);
    assert b + [] == b;
  }

  lemma LastValue(acc: nat, held: seq<bool>, pad: seq<bool>)
    requires 0 < |held| < 5 && |pad| == 5 - |held| && pad == Zeros(|pad|) && Low(acc, |held|) == Val(held)
    ensures Val(held + pad) == Shl(acc, |pad|) % 32
  {
    hide Low, Shl, Times, Val, Pow2, Bits;
    ZerosVal(|pad|);
    ValAppend(held, pad);
    LowShift(acc, |held|, |pad|, 0);
    LowFive(Shl(acc, |pad|));
  }

  lemma LowFive(acc: nat)
    ensures Low(acc, 5) == acc % 32
  {
    Fives();
  }

  lemma {:induction false} ZeroBits(n: nat)
    ensures Bits(0, n) == Zeros(n)
  {
    if n > 0 { ZeroBits(n - 1); }
  }

  lemma {:induction false} ZerosVal(n: nat)
    ensures Val(Zeros(n)) == 0
  {
    if n > 0 {
      ZerosVal(n - 1);
      assert Zeros(n)[..n - 1] == Zeros(n - 1);
    }
  }

  /** The bytes still to come, from the bits held and the characters not yet read. */
  function OctetsToCome(held: seq<bool>, rest: string): seq<nat> {
    if Symbolic(rest).Some? then Packed(held + Spread(Symbolic(rest).value, 5), 8) else []
  }

  /** Half-way through parsing, after `i` characters. */
  ghost predicate Parsing(s: string, i: nat, acc: nat, held: seq<bool>, out: seq<nat>) {
    && i <= |s| && Low(acc, |held|) == Val(held)
    && (Symbolic(s).Some? <==> Symbolic(s[i..]).Some?)
    && (Symbolic(s).Some? ==> Octets(Symbolic(s).value) == out + OctetsToCome(held, s[i..]))
  }

  lemma ParseSymbol(s: string, i: nat, acc: nat, held: seq<bool>, out: seq<nat>)
    requires Parsing(s, i, acc, held, out) && i < |s| && |held| < 8
    ensures Symbol(s[i]).None? ==> Symbolic(s).None?
    ensures Symbol(s[i]).Some? ==>
              Parsing(s, i + 1, Shl(acc, 5) + Symbol(s[i]).value, held + Bits(Symbol(s[i]).value, 5), out)
  {
    hide Low, Shl, OctetsToCome, Octets, Symbol, Val, Pow2, Bits;
    Fives();
    assert s[i..][1..] == s[i + 1..];
    if Symbol(s[i]).Some? {
      ShiftIn(acc, held, Symbol(s[i]).value, 5);
      NextSymbol(held, s[i..]);
    }
  }

  lemma ParseOctet(s: string, i: nat, acc: nat, held: seq<bool>, out: seq<nat>)
    requires Parsing(s, i, acc, held, out) && 8 <= |held| < 16
    ensures Parsing(s, i, acc, held[8..], out + [Shr(acc, |held| - 8) % 256])
  {
    hide Low, Shr, OctetsToCome, Octets, Symbolic, Val, Pow2;
    Fives();
    Emit(acc, held, 8);
    NextOctet(held, s[i..]);
  }

  lemma ParseEnd(s: string, acc: nat, held: seq<bool>, out: seq<nat>)
    requires Parsing(s, |s|, acc, held, out) && |held| < 8
    ensures Symbolic(s).Some? && Octets(Symbolic(s).value) == out
  {
    hide Low, Octets;
    assert s[|s|..] == "";
    EndDecode(held, s[|s|..]);
  }

  /** `b32_decode`. */
  method Decode(s: string, expected: nat) returns (r: Result<seq<nat>, Fault>)
    ensures r == Decoded(s, expected)
  {
    hide Parsing, Shl, Shr, Symbol, Symbolic, Octets;
    var out: seq<nat> := [];
    var acc: nat, bits: nat := 0, 0;
    ghost var held: seq<bool> := [];
    StartDecode(s);
    for i := 0 to |s|
      invariant bits == |held| < 8 && Parsing(s, i, acc, held, out)
    {
      ParseSymbol(s, i, acc, held, out);
      var v := Symbol(s[i]);
      if v.None? { return Err(BadCharacter); }
      acc := Shl(acc, 5) + v.value;
      bits := bits + 5;
      held := held + Bits(v.value, 5);
      if bits >= 8 {
        ParseOctet(s, i + 1, acc, held, out);
        bits := bits - 8;
        out := out + [Shr(acc, bits) % 256];
        held := held[8..];
      }
    }
    ParseEnd(s, acc, held, out);
    if |out| < expected { return Err(TooShort); }
    return Ok(out[..expected]);
  }

  lemma StartDecode(s: string)
    ensures Parsing(s, 0, 0, [], [])
  {
    assert s[0..] == s;
    if Symbolic(s).Some? { assert [] + Spread(Symbolic(s).value, 5) == Spread(Symbolic(s).value, 5); }
  }

  lemma EndDecode(held: seq<bool>, rest: string)
    requires rest == "" && |held| < 8
    ensures Symbolic(rest) == Some([]) && OctetsToCome(held, rest) == []
  {}

  lemma NextSymbol(held: seq<bool>, s: string)
    requires s != "" && Symbol(s[0]).Some?
    ensures OctetsToCome(held, s) == OctetsToCome(held + Bits(Symbol(s[0]).value, 5), s[1..])
  {
    var rest, v := Symbolic(s[1..]), Symbol(s[0]).value;
    if rest.Some? {
      SpreadFirst(v, rest.value);
      assert held + (Bits(v, 5) + Spread(rest.value, 5)) == (held + Bits(v, 5)) + Spread(rest.value, 5);
    }
  }

  lemma SpreadFirst(v: nat, rest: seq<nat>)
    ensures Spread([v] + rest, 5) == Bits(v, 5) + Spread(rest, 5)
  {
    assert ([v] + rest)[1..] == rest;
  }

  lemma NextOctet(held: seq<bool>, s: string)
    requires |held| >= 8
    ensures Symbolic(s).Some? ==> OctetsToCome(held, s) == [Val(held[..8])] + OctetsToCome(held[8..], s)
  {
    hide Symbolic, Spread, Packed;
    if Symbolic(s).Some? {
      var more := Spread(Symbolic(s).value, 5);
      assert held + more == held[..8] + (held[8..] + more);
      PackedGroup(held[..8], held[8..] + more, 8);
    }
  }
}
