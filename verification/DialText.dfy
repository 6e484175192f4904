/** The address text a room code carries: `ip:port` as Rust's socket address parser reads it, and
    `ADDRESS:CHANNEL` (core/src/transport/bluetooth_stub.rs). */
module DialText {
  import opened Bytes

  // ----- decimal numbers -----

  predicate IsDigit(c: char) { '0' <= c <= '9' }

  predicate Digits(s: string) { forall i | 0 <= i < |s| :: IsDigit(s[i]) }

  function Digit(n: nat): (c: char)
    requires n < 10
    ensures IsDigit(c) && c as int - '0' as int == n
  {
    '0' + n as char
  }

  function Dec(n: nat): (s: string)
    ensures Digits(s) && |s| > 0
    ensures n < 10 <==> |s| == 1
    ensures s[0] == '0' <==> n == 0
  {
    if n < 10 then [Digit(n)] else Dec(n / 10) + [Digit(n % 10)]
  }

  function DecVal(s: string): nat
    requires Digits(s)
  {
    if s == "" then 0 else 10 * DecVal(s[..|s| - 1]) + (s[|s| - 1] as int - '0' as int)
  }

  lemma {:induction false} DecRoundTrip(n: nat)
    ensures DecVal(Dec(n)) == n
  {
    if n >= 10 {
      DecRoundTrip(n / 10);
      assert Dec(n)[..|Dec(n)| - 1] == Dec(n / 10);
    } else {
      assert Dec(n)[..0] == "";
    }
  }

  /** How many digits `s` starts with. */
  function Run(s: string): (k: nat)
    ensures k <= |s| && Digits(s[..k]) && (k < |s| ==> !IsDigit(s[k]))
  {
    if s == "" || !IsDigit(s[0]) then 0 else
    assert forall k: nat | k <= |s[1..]| :: s[..k + 1] == [s[0]] + s[1..][..k];
    1 + Run(s[1..])
  }

  lemma {:induction false} RunOf(s: string, rest: string)
    requires Digits(s) && (rest == "" || !IsDigit(rest[0]))
    ensures Run(s + rest) == |s|
  {
    if s == "" {
      assert s + rest == rest;
    } else {
      assert (s + rest)[1..] == s[1..] + rest;
      RunOf(s[1..], rest);
    }
  }

  /** A number at the front of `s`, at most `limit`, and what follows it. */
  function ReadNumber(s: string, maxDigits: Option<nat>, zeroPrefix: bool, limit: nat): (r: Option<(nat, string)>)
    ensures r.Some? ==> r.value.0 <= limit
  {
    var k := Run(s);
    if k == 0 || (maxDigits.Some? && k > maxDigits.value) || (!zeroPrefix && s[0] == '0' && k > 1) then None
    else if DecVal(s[..k]) > limit then None
    else Some((DecVal(s[..k]), s[k..]))
  }

  lemma ReadDec(n: nat, rest: string, maxDigits: Option<nat>, zeroPrefix: bool, limit: nat)
    requires n <= limit && (rest == "" || !IsDigit(rest[0]))
    requires maxDigits.Some? ==> |Dec(n)| <= maxDigits.value
    ensures ReadNumber(Dec(n) + rest, maxDigits, zeroPrefix, limit) == Some((n, rest))
  {
    RunOf(Dec(n), rest);
    DecRoundTrip(n);
    var s := Dec(n) + rest;
    assert s[..|Dec(n)|] == Dec(n) && s[|Dec(n)|..] == rest;
  }

  lemma ShortDec(n: nat)
    requires n < 1000
    ensures |Dec(n)| <= 3
  {
    assert |Dec(n / 10 / 10)| == 1;
  }

  // ----- ip:port -----

  /** One octet of an address; a leading zero is refused. */
  function ReadOctet(s: string): (r: Option<(nat, string)>)
    ensures r.Some? ==> r.value.0 < 256
  {
    ReadNumber(s, Some(3), false, 255)
  }

  function Expect(s: string, c: char): Option<string> {
    if s != "" && s[0] == c then Some(s[1..]) else None
  }

  /** `c` and an octet. */
  function NextOctet(s: string, c: char): (r: Option<(nat, string)>)
    ensures r.Some? ==> r.value.0 < 256
  {
    var rest := Expect(s, c);
    if rest.None? then None else ReadOctet(rest.value)
  }

  datatype Socket = Socket(a: byte, b: byte, c: byte, d: byte, port: nat)

  predicate IsSocket(s: Socket) { s.port < 65536 }

  /** The text as an IPv4 socket address, if it is one. */
  function ParseSocket(s: string): (r: Option<Socket>)
    ensures r.Some? ==> IsSocket(r.value)
  {
    var a := ReadOctet(s);
    if a.None? then None else
    var b := NextOctet(a.value.1, '.');
    if b.None? then None else
    var c := NextOctet(b.value.1, '.');
    if c.None? then None else
    var d := NextOctet(c.value.1, '.');
    if d.None? then None else
    var rest := Expect(d.value.1, ':');
    if rest.None? then None else
    var port := ReadNumber(rest.value, None, true, 65535);
    if port.None? || port.value.1 != "" then None
    else Some(Socket(a.value.0, b.value.0, c.value.0, d.value.0, port.value.0))
  }

  function FormatSocket(s: Socket): string {
    Dec(s.a) + ("." + (Dec(s.b) + ("." + (Dec(s.c) + ("." + (Dec(s.d) + (":" + Dec(s.port))))))))
  }

  lemma NextOctetDec(n: byte, rest: string, c: char)
    requires rest == "" || !IsDigit(rest[0])
    ensures NextOctet([c] + (Dec(n) + rest), c) == Some((n, rest))
    ensures ReadOctet(Dec(n) + rest) == Some((n, rest))
  {
    ShortDec(n);
    ReadDec(n, rest, Some(3), false, 255);
    assert ([c] + (Dec(n) + rest))[1..] == Dec(n) + rest;
  }

  /** Every socket address survives being printed and parsed. */
  lemma SocketRoundTrip(s: Socket)
    requires IsSocket(s)
    ensures ParseSocket(FormatSocket(s)) == Some(s)
  {
    hide ReadOctet, NextOctet, ReadNumber, Dec;
    var p := ":" + Dec(s.port);
    var d := "." + (Dec(s.d) + p);
    var c := "." + (Dec(s.c) + d);
    var b := "." + (Dec(s.b) + c);
    NextOctetDec(s.a, b, '.');
    NextOctetDec(s.b, c, '.');
    NextOctetDec(s.c, d, '.');
    NextOctetDec(s.d, p, '.');
    assert Dec(s.port) + "" == Dec(s.port);
    ReadDec(s.port, "", None, true, 65535);
    assert p[1..] == Dec(s.port);
  }

  // ----- ADDRESS:CHANNEL -----

  function HexDigit(n: nat): (c: char)
    requires n < 16
    ensures IsHex(c) && HexVal(c) == n
  {
    if n < 10 then '0' + n as char else 'A' + (n - 10) as char
  }

  predicate AllHex(s: string) { forall i | 0 <= i < |s| :: IsHex(s[i]) }

  /** The low `k` hex digits of `n`. */
  function Hex(n: nat, k: nat): (s: string)
    ensures |s| == k && AllHex(s)
  {
    if k == 0 then "" else Hex(n / 16, k - 1) + [HexDigit(n % 16)]
  }

  function FromHex(s: string): nat
    requires AllHex(s)
  {
    if s == "" then 0 else 16 * FromHex(s[..|s| - 1]) + HexVal(s[|s| - 1])
  }

  function Pow16(k: nat): nat { if k == 0 then 1 else 16 * Pow16(k - 1) }

  lemma {:induction false} HexRoundTrip(n: nat, k: nat)
    requires n < Pow16(k)
    ensures FromHex(Hex(n, k)) == n
  {
    if k > 0 {
      HexRoundTrip(n / 16, k - 1);
      assert Hex(n, k)[..k - 1] == Hex(n / 16, k - 1);
    }
  }

  lemma {:induction false} FromHexBound(s: string)
    requires AllHex(s)
    ensures FromHex(s) < Pow16(|s|)
  {
    if s != "" { FromHexBound(s[..|s| - 1]); }
  }

  const ADDRESS_LIMIT := 0x1_0000_0000_0000

  lemma AddressLimit()
    ensures Pow16(12) == ADDRESS_LIMIT
  {
    assert Pow16(2) == 256;
    assert Pow16(4) == 256 * Pow16(2);
    assert Pow16(6) == 256 * Pow16(4);
    assert Pow16(8) == 256 * Pow16(6);
    assert Pow16(10) == 256 * Pow16(8);
    assert Pow16(12) == 256 * Pow16(10);
  }

  function OnlyHex(s: string): (t: string)
    ensures AllHex(t)
  {
    if s == "" then "" else (if IsHex(s[0]) then [s[0]] else "") + OnlyHex(s[1..])
  }

  lemma {:induction false} OnlyHexSame(s: string)
    requires AllHex(s)
    ensures OnlyHex(s) == s
  {
    if s != "" { OnlyHexSame(s[1..]); }
  }

  /** `parse_addr`: any separators are ignored. */
  function ParseAddr(s: string): (r: Option<nat>)
    ensures r.Some? ==> r.value < ADDRESS_LIMIT
  {
    var hex := OnlyHex(s);
    if |hex| != 12 then None else
    FromHexBound(hex);
    AddressLimit();
    Some(FromHex(hex))
  }

  /** `format_addr`. */
  function FormatAddr(addr: nat): string { Hex(addr % ADDRESS_LIMIT, 12) }

  function LastColon(s: string): (i: int)
    ensures -1 <= i < |s| && (i >= 0 ==> s[i] == ':') && forall j | i < j < |s| :: s[j] != ':'
  {
    if s == "" then -1 else if s[|s| - 1] == ':' then |s| - 1 else LastColon(s[..|s| - 1])
  }

  /** `str::parse::<u32>`: digits after at most one plus sign. */
  function ParseU32(s: string): Option<nat> {
    var digits := if |s| > 1 && s[0] == '+' then s[1..] else s;
    if digits == "" || !Digits(digits) || DecVal(digits) >= 0x1_0000_0000 then None else Some(DecVal(digits))
  }

  datatype Radio = Radio(addr: nat, channel: nat)

  /** `parse_dial`. */
  function ParseDial(s: string): (r: Option<Radio>)
    ensures r.Some? ==> r.value.addr < ADDRESS_LIMIT
  {
    var i := LastColon(s);
    if i < 0 then None else
    var addr, channel := ParseAddr(s[..i]), ParseU32(s[i + 1..]);
    if addr.None? || channel.None? then None else Some(Radio(addr.value, channel.value))
  }

  function FormatDial(r: Radio): string { FormatAddr(r.addr) + ":" + Dec(r.channel) }

  lemma ColonAt(mac: string, ch: string)
    requires Digits(ch)
    ensures var s := mac + ":" + ch;
            LastColon(s) == |mac| && s[..|mac|] == mac && s[|mac| + 1..] == ch
  {
    var s := mac + ":" + ch;
    var k := |mac|;
    assert s[k] == ':';
    forall j | k < j < |s| ensures s[j] != ':' { assert s[j] == ch[j - k - 1]; }
  }

  lemma U32RoundTrip(n: nat)
    requires n < 0x1_0000_0000
    ensures ParseU32(Dec(n)) == Some(n)
  {
    DecRoundTrip(n);
    assert IsDigit(Dec(n)[0]);
  }

  lemma AddrRoundTrip(addr: nat)
    requires addr < ADDRESS_LIMIT
    ensures ParseAddr(FormatAddr(addr)) == Some(addr)
  {
    hide Hex, FromHex, OnlyHex, Pow16;
    OnlyHexSame(FormatAddr(addr));
    AddressLimit();
    HexRoundTrip(addr, 12);
  }

  /** Every address and channel survive being printed and parsed. */
  lemma DialRoundTrip(r: Radio)
    requires r.addr < ADDRESS_LIMIT && r.channel < 0x1_0000_0000
    ensures ParseDial(FormatDial(r)) == Some(r)
  {
    hide ParseAddr, ParseU32, FormatAddr, Dec, LastColon;
    AddrRoundTrip(r.addr);
    U32RoundTrip(r.channel);
    ColonAt(FormatAddr(r.addr), Dec(r.channel));
  }
}
