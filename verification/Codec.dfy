/** Length-prefixed framing (core/src/codec.rs) over a stream that reads and writes in arbitrary
    positive pieces, is interrupted any finite number of times, and may break at any byte. */
module Codec {
  import opened Bytes

  const MAX_FRAME := 65535

  datatype IoResult = Count(n: nat) | Interrupted | Broken

  datatype Fault = PeerClosed | Failed | TooLarge | Oversized

  /** One end of a byte stream. `incoming` is all the bytes this end will still be given; after them
      reading returns zero, or fails if `breaks`. `room` is how many more bytes the other end will take;
      after them writing returns zero, or fails if `jams`. `noise` bounds the interruptions to come. */
  class Stream {
    const breaks: bool
    const jams: bool
    var incoming: seq<byte>
    var written: seq<byte>
    var room: nat
    var noise: nat

    constructor (incoming: seq<byte>, room: nat, noise: nat, breaks: bool, jams: bool)
      ensures this.incoming == incoming && written == [] && this.room == room && this.noise == noise
      ensures this.breaks == breaks && this.jams == jams
    {
      this.incoming, this.room, this.noise, written := incoming, room, noise, [];
      this.breaks, this.jams := breaks, jams;
    }

    /** A single `read` into `buf[off..]`: some positive number of bytes, or zero or an error once
        nothing is left, or an interruption. */
    method Read(buf: array<byte>, off: nat) returns (r: IoResult)
      requires off < buf.Length
      modifies this`incoming, this`noise, buf
      ensures buf[..off] == old(buf[..off])
      ensures r.Count? ==> noise == old(noise) && off + r.n <= buf.Length && old(incoming) == buf[off..off + r.n] + incoming
      ensures r == Count(0) ==> old(incoming) == [] && !breaks
      ensures r == Broken ==> old(incoming) == [] && breaks
      ensures r.Interrupted? ==> noise < old(noise)
      ensures !r.Count? ==> incoming == old(incoming)
    {
      var interrupted: bool := *;
      if noise > 0 && interrupted {
        noise := noise - 1;
        return Interrupted;
      }
      if incoming == [] {
        if breaks { return Broken; }
        assert buf[off..off + 0] == [];
        return Count(0);
      }
      var n :| 1 <= n <= |incoming| && off + n <= buf.Length;
      forall i | 0 <= i < n { buf[off + i] := incoming[i]; }
      assert buf[off..off + n] == incoming[..n];
      incoming := incoming[n..];
      return Count(n);
    }

    /** A single `write` of `data[off..]`. */
    method Write(data: seq<byte>, off: nat) returns (r: IoResult)
      requires off < |data|
      modifies this`written, this`room, this`noise
      ensures r.Count? ==>
        && noise == old(noise) && off + r.n <= |data|
        && written == old(written) + data[off..off + r.n] && room + r.n == old(room)
      ensures r == Count(0) ==> old(room) == 0 && !jams
      ensures r == Broken ==> old(room) == 0 && jams
      ensures r.Interrupted? ==> noise < old(noise)
      ensures !r.Count? ==> written == old(written) && room == old(room)
    {
      var interrupted: bool := *;
      if noise > 0 && interrupted {
        noise := noise - 1;
        return Interrupted;
      }
      if room == 0 {
        if jams { return Broken; }
        assert data[off..off + 0] == [];
        return Count(0);
      }
      var n :| 1 <= n <= room && off + n <= |data|;
      written := written + data[off..off + n];
      room := room - n;
      return Count(n);
    }

    /** Fills the whole buffer, or fails exactly when the stream ends before it is full. */
    method ReadExact(buf: array<byte>) returns (r: Result<(), Fault>)
      modifies this`incoming, this`noise, buf
      ensures r.Ok? <==> buf.Length <= |old(incoming)|
      ensures r.Ok? ==> buf[..] == old(incoming)[..buf.Length] && incoming == old(incoming)[buf.Length..]
      ensures r.Err? ==> incoming == [] && r.fault == if breaks then Failed else PeerClosed
    {
      var off := 0;
      while off < buf.Length
        invariant off <= buf.Length
        invariant old(incoming) == buf[..off] + incoming
        decreases buf.Length - off + noise
      {
        ghost var head, rest := buf[..off], incoming;
        var io := Read(buf, off);
        match io
        case Count(n) =>
          if n == 0 { return Err(PeerClosed); }
          assert buf[..off + n] == head + buf[off..off + n];
          assert head + rest == buf[..off + n] + incoming;
          off := off + n;
        case Interrupted =>
        case Broken => return Err(Failed);
      }
      assert buf[..] == buf[..off];
      return Ok(());
    }

    /** Writes everything, or fails exactly when the other end stops taking bytes before the end;
        then all the bytes it did take are on the wire, in order. */
    method WriteAll(data: seq<byte>) returns (r: Result<(), Fault>)
      modifies this`written, this`room, this`noise
      ensures r.Ok? <==> |data| <= old(room)
      ensures written == old(written) + if r.Ok? then data else data[..old(room)]
      ensures room == if r.Ok? then old(room) - |data| else 0
      ensures r.Err? ==> r.fault == if jams then Failed else PeerClosed
    {
      var off := 0;
      while off < |data|
        invariant off <= |data|
        invariant written == old(written) + data[..off] && room + off == old(room)
        decreases |data| - off + noise
      {
        var io := Write(data, off);
        match io
        case Count(n) =>
          if n == 0 { return Err(PeerClosed); }
          assert data[..off + n] == data[..off] + data[off..off + n];
          off := off + n;
        case Interrupted =>
        case Broken => return Err(Failed);
      }
      assert data[..off] == data;
      return Ok(());
    }

    /** Sends one frame; an oversized payload is refused before anything is written. */
    method WriteFrame(payload: seq<byte>) returns (r: Result<(), Fault>)
      modifies this`written, this`room, this`noise
      ensures |payload| > 65535 ==> r == Err(TooLarge) && written == old(written) && room == old(room)
      ensures |payload| <= 65535 ==>
        && (r.Ok? <==> |Framed(payload)| <= old(room))
        && written == old(written) + (if r.Ok? then Framed(payload) else Framed(payload)[..old(room)])
        && room == (if r.Ok? then old(room) - |Framed(payload)| else 0)
        && (r.Err? ==> r.fault == if jams then Failed else PeerClosed)
    {
      if |payload| > MAX_FRAME { return Err(TooLarge); }
      var out := ToBytes(|payload|, 4);
      out := out + payload;
      r := WriteAll(out);
    }

    /** Receives one frame: exactly what `ParseFrame` finds at the front of the bytes to come. */
    method ReadFrame() returns (r: Result<seq<byte>, Fault>)
      modifies this`incoming, this`noise
      ensures r == Seen(ParseFrame(old(incoming)).0, breaks)
      ensures incoming == ParseFrame(old(incoming)).1
    {
      ghost var all := incoming;
      var hdr := new byte[4];
      var head := ReadExact(hdr);
      if head.Err? { return Err(head.fault); }
      assert hdr[..] == all[..4];
      var len := FromBytes(hdr[..]);
      if len > MAX_FRAME { return Err(Oversized); }
      var buf := new byte[len];
      var body := ReadExact(buf);
      if body.Err? { return Err(body.fault); }
      assert all[4..][..len] == all[4..4 + len] && all[4..][len..] == all[4 + len..];
      return Ok(buf[..]);
    }
  }

  // ----- the wire format -----

  function Framed(payload: seq<byte>): seq<byte> { ToBytes(|payload|, 4) + payload }

  /** What is at the front of a stream that ends after `bytes`, and what is left behind it. */
  function ParseFrame(bytes: seq<byte>): (Result<seq<byte>, Fault>, seq<byte>) {
    if |bytes| < 4 then (Err(PeerClosed), []) else
    var len := FromBytes(bytes[..4]);
    if len > MAX_FRAME then (Err(Oversized), bytes[4..])
    else if |bytes| < 4 + len then (Err(PeerClosed), [])
    else (Ok(bytes[4..4 + len]), bytes[4 + len..])
  }

  /** Where the parser finds the end of the stream, the reader of one that breaks meets the failure. */
  function Seen(parsed: Result<seq<byte>, Fault>, breaks: bool): Result<seq<byte>, Fault> {
    if parsed == Err(PeerClosed) && breaks then Err(Failed) else parsed
  }

  function Wire(payloads: seq<seq<byte>>): seq<byte> {
    if payloads == [] then [] else Framed(payloads[0]) + Wire(payloads[1..])
  }

  /** Reading frames until the first error: the payloads, and that error. */
  function ReadAll(bytes: seq<byte>): (seq<seq<byte>>, Fault)
    decreases |bytes|
  {
    match ParseFrame(bytes)
    case (Ok(payload), rest) =>
      var (more, fault) := ReadAll(rest);
      ([payload] + more, fault)
    case (Err(fault), _) => ([], fault)
  }

  predicate Fits(payloads: seq<seq<byte>>) { forall i | 0 <= i < |payloads| :: |payloads[i]| <= MAX_FRAME }

  /** What a frame looks like: the payload behind its length, two zero bytes and then the two of a
      16-bit number. */
  lemma FrameLooks(payload: seq<byte>)
    requires |payload| <= 65535
    ensures Framed(payload) == [0, 0, |payload| / 256, |payload| % 256] + payload
  {
    Widths();
    ToFromBytes([0, 0, |payload| / 256, |payload| % 256]);
    FourBytes([0, 0, |payload| / 256, |payload| % 256]);
  }

  /** What the parser answers to any bytes whatever, the length read off the first four. */
  lemma ParsesExactly(bytes: seq<byte>)
    ensures |bytes| < 4 ==> ParseFrame(bytes) == (Err(PeerClosed), [])
    ensures |bytes| >= 4 ==>
              var len := Word(bytes[0], bytes[1], bytes[2], bytes[3]);
              && (ParseFrame(bytes) == (Err(Oversized), bytes[4..]) <==> len >= 65536)
              && (ParseFrame(bytes) == (Err(PeerClosed), []) <==> |bytes| - 4 < len < 65536)
              && (ParseFrame(bytes).0.Ok? <==> len < 65536 && len <= |bytes| - 4)
              && (ParseFrame(bytes).0.Ok? ==> |ParseFrame(bytes).0.value| == len
                                              && bytes == bytes[..4] + ParseFrame(bytes).0.value + ParseFrame(bytes).1)
  {
    if |bytes| >= 4 {
      FourBytes(bytes[..4]);
      var len := FromBytes(bytes[..4]);
      if len < 65536 && len <= |bytes| - 4 { assert bytes == bytes[..4] + bytes[4..4 + len] + bytes[4 + len..]; }
    }
  }

  /** Parsing undoes framing, whatever follows on the stream. */
  lemma FrameParses(payload: seq<byte>, rest: seq<byte>)
    requires |payload| <= MAX_FRAME
    ensures ParseFrame(Framed(payload) + rest) == (Ok(payload), rest)
  {
    var bytes := Framed(payload) + rest;
    assert bytes[..4] == ToBytes(|payload|, 4);
    Widths();
    NumberRoundTrip(|payload|, 4);
    assert bytes[4..4 + |payload|] == payload && bytes[4 + |payload|..] == rest;
  }

  /** A frame that is not all there is never mistaken for a shorter one. */
  lemma CutFrameFails(payload: seq<byte>, cut: nat)
    requires |payload| <= MAX_FRAME && cut < |Framed(payload)|
    ensures ParseFrame(Framed(payload)[..cut]) == (Err(PeerClosed), [])
  {
    if cut >= 4 {
      assert Framed(payload)[..cut][..4] == ToBytes(|payload|, 4);
      Widths();
      NumberRoundTrip(|payload|, 4);
    }
  }

  /** How many whole frames are among the first `cut` bytes. */
  function Whole(payloads: seq<seq<byte>>, cut: nat): (k: nat)
    ensures k <= |payloads|
  {
    if payloads == [] || cut < |Framed(payloads[0])| then 0
    else 1 + Whole(payloads[1..], cut - |Framed(payloads[0])|)
  }

  /** `Whole` is the number it should be: those frames are complete and the next one is not. */
  lemma {:induction false} WholeIsMaximal(payloads: seq<seq<byte>>, cut: nat)
    ensures var k := Whole(payloads, cut);
            |Wire(payloads[..k])| <= cut && (k < |payloads| ==> cut < |Wire(payloads[..k + 1])|)
  {
    var k := Whole(payloads, cut);
    if k > 0 {
      WholeIsMaximal(payloads[1..], cut - |Framed(payloads[0])|);
      assert payloads[..k][1..] == payloads[1..][..k - 1];
      if k < |payloads| { assert payloads[..k + 1][1..] == payloads[1..][..k]; }
    } else if payloads != [] {
      assert payloads[..1][0] == payloads[0];
    }
  }

  /** A stream cut at any byte gives back exactly the payloads whose frames are complete, in order
      and unaltered, and then an error. */
  lemma {:induction false} CutStream(payloads: seq<seq<byte>>, cut: nat)
    requires Fits(payloads) && cut <= |Wire(payloads)|
    ensures ReadAll(Wire(payloads)[..cut]) == (payloads[..Whole(payloads, cut)], PeerClosed)
  {
    if payloads == [] {
    } else {
      var first, more := Framed(payloads[0]), payloads[1..];
      if cut < |first| {
        assert Wire(payloads)[..cut] == first[..cut];
        CutFrameFails(payloads[0], cut);
      } else {
        var k := cut - |first|;
        CutStream(more, k);
        assert Wire(payloads)[..cut] == first + Wire(more)[..k];
        FrameParses(payloads[0], Wire(more)[..k]);
        assert payloads[..1 + Whole(more, k)] == [payloads[0]] + more[..Whole(more, k)];
      }
    }
  }

  /** Any list of payloads written and read back is that list. */
  lemma StreamRoundTrip(payloads: seq<seq<byte>>)
    requires Fits(payloads)
    ensures ReadAll(Wire(payloads)) == (payloads, PeerClosed)
  {
    var all := Wire(payloads);
    WholeIsAll(payloads);
    CutStream(payloads, |all|);
    assert all[..|all|] == all && payloads[..|payloads|] == payloads;
  }

  lemma {:induction false} WholeIsAll(payloads: seq<seq<byte>>)
    ensures Whole(payloads, |Wire(payloads)|) == |payloads|
  {
    if payloads != [] { WholeIsAll(payloads[1..]); }
  }

  /** Nothing is invented: whatever the bytes, the payloads read are framed at their very front. */
  lemma {:induction false} ReadAllSound(bytes: seq<byte>)
    ensures Fits(ReadAll(bytes).0) && Wire(ReadAll(bytes).0) <= bytes
    decreases |bytes|
  {
    match ParseFrame(bytes)
    case (Ok(payload), rest) =>
      ReadAllSound(rest);
      var more := ReadAll(rest).0;
      assert ([payload] + more)[1..] == more;
      ToFromBytes(bytes[..4]);
      assert bytes == Framed(payload) + rest;
    case (Err(_), _) =>
  }
}
