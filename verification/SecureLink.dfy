/** The encrypted link (core/src/crypto.rs) under many sending threads, one reading thread, two
    mutexes and short reads and writes, in both directions at once.

    The cipher is an ideal authenticated cipher with a message counter (CipherState, section 5.1 of
    the Noise Protocol Framework): a ciphertext opens under counter n only if it is the one the far
    end sealed as its n-th message. */
module SecureLink {
  import opened Bytes
  import Codec

  type Sealing = (nat, seq<byte>) -> seq<byte>

  const TAG := 16
  const MAX_PLAINTEXT := 65519
  /** The counter value that is never used. */
  const NONCE_LIMIT := 0xFFFF_FFFF_FFFF_FFFF

  /** Message sizes of section 3: a 16-byte tag and nothing else. */
  ghost predicate Tagged(seal: Sealing) { forall n, p :: |seal(n, p)| == |p| + TAG }

  function Unseal(seal: Sealing, sealed: seq<seq<byte>>, n: nat, ct: seq<byte>): Option<seq<byte>> {
    if n < |sealed| && ct == seal(n, sealed[n]) then Some(sealed[n]) else None
  }

  // ----- one end of the link -----

  /** Where a thread inside `send` is. */
  datatype Pc =
    | Idle
    | AtGate(payload: seq<byte>)
    | AtCipher(payload: seq<byte>)
    | Encrypting(payload: seq<byte>)
    | Writing(frame: seq<byte>, sent: nat)

  /** Where the reading thread is inside `recv`. */
  datatype Reader =
    | Collecting(buf: seq<byte>)
    | HasFrame(ct: seq<byte>)
    | Opening(ct: seq<byte>)
    | Refused
    | HungUp

  datatype Gate = Open | HeldBy(thread: nat)

  datatype Mutex = Free | Sender(thread: nat) | Receiver

  /** `log`, `got` and `tear` are history: the payloads in the order they were encrypted, the payloads
      `recv` returned, and the index of the first message whose write failed. `wire` is every byte
      written so far; the far reader has taken the first `taken` bytes of the other end's `wire`. */
  datatype End = End(
    threads: map<nat, Pc>, gate: Gate, cipher: Mutex,
    sendCount: nat, log: seq<seq<byte>>, wire: seq<byte>, tear: Option<nat>,
    reader: Reader, recvCount: nat, got: seq<seq<byte>>, taken: nat)

  const FRESH := End(map[], Open, Free, 0, [], [], None, Collecting([]), 0, [], 0)

  function PcOf(e: End, t: nat): Pc { if t in e.threads then e.threads[t] else Idle }

  // ----- steps -----

  datatype SendAct =
    | Call(thread: nat, payload: seq<byte>)
    | TakeGate(thread: nat)
    | TakeCipher(thread: nat)
    | Encrypt(thread: nat)
    | WriteSome(thread: nat, n: nat)
    | Finish(thread: nat)
    | WriteFails(thread: nat)

  predicate SendEnabled(e: End, a: SendAct) {
    var pc := PcOf(e, a.thread);
    match a
    case Call(_, _) => pc.Idle?
    case TakeGate(_) => pc.AtGate? && e.gate.Open?
    case TakeCipher(_) => pc.AtCipher? && e.cipher.Free?
    case Encrypt(_) => pc.Encrypting?
    case WriteSome(_, n) => pc.Writing? && 1 <= n && pc.sent + n <= |pc.frame|
    case Finish(_) => pc.Writing? && pc.sent == |pc.frame|
    case WriteFails(_) => pc.Writing? && pc.sent < |pc.frame|
  }

  function At(e: End, t: nat, pc: Pc): End { e.(threads := e.threads[t := pc]) }

  function Send(seal: Sealing, e: End, a: SendAct): End
    requires SendEnabled(e, a)
  {
    var t, pc := a.thread, PcOf(e, a.thread);
    match a
    case Call(_, payload) => if |payload| > MAX_PLAINTEXT then e else At(e, t, AtGate(payload))
    case TakeGate(_) => At(e, t, AtCipher(pc.payload)).(gate := HeldBy(t))
    case TakeCipher(_) => At(e, t, Encrypting(pc.payload)).(cipher := Sender(t))
    case Encrypt(_) =>
      if e.sendCount >= NONCE_LIMIT then At(e, t, Idle).(cipher := Free, gate := Open)
      else At(e, t, Writing(Codec.Framed(seal(e.sendCount, pc.payload)), 0))
             .(cipher := Free, sendCount := e.sendCount + 1, log := e.log + [pc.payload])
    case WriteSome(_, n) =>
      At(e, t, Writing(pc.frame, pc.sent + n)).(wire := e.wire + pc.frame[pc.sent..pc.sent + n])
    case Finish(_) => At(e, t, Idle).(gate := Open)
    case WriteFails(_) =>
      At(e, t, Idle).(gate := Open, tear := if e.tear.None? && |e.log| > 0 then Some(|e.log| - 1) else e.tear)
  }

  datatype RecvAct = Pull(n: nat) | LockToOpen | OpenFrame | HangUp

  /** How many more bytes the current `read_exact` wants. */
  function Wanted(buf: seq<byte>): int {
    if |buf| < 4 then 4 - |buf| else 4 + FromBytes(buf[..4]) - |buf|
  }

  /** `far` is the end the bytes come from. */
  predicate RecvEnabled(e: End, far: End, a: RecvAct) {
    match a
    case Pull(n) => e.reader.Collecting? && 1 <= n <= Wanted(e.reader.buf) && e.taken + n <= |far.wire|
    case LockToOpen => e.reader.HasFrame? && e.cipher.Free?
    case OpenFrame => e.reader.Opening?
    case HangUp => e.reader.Collecting?
  }

  /** What the bytes collected so far amount to. */
  function Collected(buf: seq<byte>): Reader {
    if |buf| < 4 then Collecting(buf)
    else if FromBytes(buf[..4]) > Codec.MAX_FRAME then Refused
    else if Wanted(buf) == 0 then HasFrame(buf[4..])
    else Collecting(buf)
  }

  function Recv(seal: Sealing, e: End, far: End, a: RecvAct): End
    requires RecvEnabled(e, far, a)
  {
    match a
    case Pull(n) =>
      e.(taken := e.taken + n, reader := Collected(e.reader.buf + far.wire[e.taken..e.taken + n]))
    case LockToOpen => e.(cipher := Receiver, reader := Opening(e.reader.ct))
    case OpenFrame => (
      match Unseal(seal, far.log, e.recvCount, e.reader.ct)
      case Some(p) => e.(cipher := Free, reader := Collecting([]), recvCount := e.recvCount + 1, got := e.got + [p])
      case None => e.(cipher := Free, reader := Refused))
    case HangUp => e.(reader := HungUp)
  }

  // ----- the two ends together -----

  datatype State = State(a: End, b: End)

  datatype Act = Sends(first: bool, s: SendAct) | Receives(first: bool, r: RecvAct)

  function Near(st: State, first: bool): End { if first then st.a else st.b }

  function Put(st: State, first: bool, e: End): State { if first then st.(a := e) else st.(b := e) }

  predicate Enabled(st: State, act: Act) {
    match act
    case Sends(first, s) => SendEnabled(Near(st, first), s)
    case Receives(first, r) => RecvEnabled(Near(st, first), Near(st, !first), r)
  }

  function Apply(seal: Sealing, st: State, act: Act): State
    requires Enabled(st, act)
  {
    match act
    case Sends(first, s) => Put(st, first, Send(seal, Near(st, first), s))
    case Receives(first, r) => Put(st, first, Recv(seal, Near(st, first), Near(st, !first), r))
  }

  const START := State(FRESH, FRESH)

  predicate IsRun(seal: Sealing, path: seq<State>, acts: seq<Act>) {
    && |path| == |acts| + 1
    && path[0] == START
    && forall i | 0 <= i < |acts| :: Enabled(path[i], acts[i]) && path[i + 1] == Apply(seal, path[i], acts[i])
  }

  // ----- the bytes a log of messages stands for -----

  function OnWire(seal: Sealing, log: seq<seq<byte>>): seq<byte> {
    if log == [] then []
    else OnWire(seal, log[..|log| - 1]) + Codec.Framed(seal(|log| - 1, log[|log| - 1]))
  }

  /** The ciphertexts in counter order. */
  function Ciphertexts(seal: Sealing, log: seq<seq<byte>>): (cts: seq<seq<byte>>)
    ensures |cts| == |log| && forall i | 0 <= i < |log| :: cts[i] == seal(i, log[i])
  {
    seq(|log|, i requires 0 <= i < |log| => seal(i, log[i]))
  }

  lemma OnWireAppend(seal: Sealing, log: seq<seq<byte>>, p: seq<byte>)
    ensures OnWire(seal, log + [p]) == OnWire(seal, log) + Codec.Framed(seal(|log|, p))
  {
    assert (log + [p])[..|log|] == log;
  }

  lemma {:induction false} OnWirePrefix(seal: Sealing, log: seq<seq<byte>>, k: nat)
    requires k <= |log|
    ensures OnWire(seal, log[..k]) <= OnWire(seal, log)
  {
    if k < |log| {
      var front := log[..|log| - 1];
      OnWirePrefix(seal, front, k);
      assert front[..k] == log[..k];
    } else {
      assert log[..k] == log;
    }
  }

  // ----- invariants -----

  predicate HoldsGate(pc: Pc) { pc.AtCipher? || pc.Encrypting? || pc.Writing? }

  /** The gate and the cipher mutex are held by whoever is past them, and by nobody else. */
  ghost predicate Locks(e: End) {
    && (forall t: nat :: HoldsGate(PcOf(e, t)) <==> e.gate == HeldBy(t))
    && (forall t: nat :: PcOf(e, t).Encrypting? <==> e.cipher == Sender(t))
    && (e.reader.Opening? <==> e.cipher == Receiver)
  }

  /** No payload past the size check is too large for one frame. */
  predicate Sized(pc: Pc) { pc.AtGate? || pc.AtCipher? || pc.Encrypting? ==> |pc.payload| <= MAX_PLAINTEXT }

  ghost predicate Payloads(e: End) {
    && (forall t: nat :: Sized(PcOf(e, t)))
    && forall i | 0 <= i < |e.log| :: |e.log[i]| <= MAX_PLAINTEXT
  }

  /** The thread past the gate, if any. */
  function Current(e: End): Pc { if e.gate.HeldBy? then PcOf(e, e.gate.thread) else Idle }

  /** Counter order is byte order: up to the first failed write the wire is the frames of the log in
      encryption order, less the unwritten tail of the frame being written. */
  ghost predicate Ordered(seal: Sealing, e: End) {
    InOrder(seal, Current(e), e.sendCount, e.log, e.wire, e.tear)
  }

  ghost predicate InOrder(seal: Sealing, now: Pc, count: nat, log: seq<seq<byte>>, wire: seq<byte>, tear: Option<nat>) {
    var n := |log|;
    && count == n <= NONCE_LIMIT
    && (now.Writing? ==> n > 0 && now.frame == Codec.Framed(seal(n - 1, log[n - 1])) && now.sent <= |now.frame|)
    && match tear
       case Some(k) => k < n && OnWire(seal, log[..k]) <= wire
       case None =>
         if now.Writing? then wire == OnWire(seal, log[..n - 1]) + now.frame[..now.sent]
         else wire == OnWire(seal, log)
  }

  /** What the reader at `e` has made of the bytes it took from `far`. */
  ghost predicate Received(seal: Sealing, e: End, far: End) {
    && e.taken <= |far.wire|
    && e.recvCount == |e.got| && e.got <= far.log
    && var read := far.wire[..e.taken];
       match e.reader
       case Collecting(buf) => read == OnWire(seal, e.got) + buf && Wanted(buf) > 0
       case HasFrame(ct) => read == OnWire(seal, e.got) + Codec.Framed(ct) && |ct| <= Codec.MAX_FRAME
       case Opening(ct) => read == OnWire(seal, e.got) + Codec.Framed(ct) && |ct| <= Codec.MAX_FRAME
       case Refused => far.tear.Some? && far.tear.value <= |e.got|
       case HungUp => true
  }

  ghost predicate EndOk(seal: Sealing, e: End) { Locks(e) && Payloads(e) && Ordered(seal, e) }

  ghost predicate Inv(seal: Sealing, st: State) {
    && EndOk(seal, st.a) && EndOk(seal, st.b)
    && Received(seal, st.a, st.b) && Received(seal, st.b, st.a)
  }

  // ----- the sending side keeps them -----

  lemma SendLocks(seal: Sealing, e: End, a: SendAct)
    requires Locks(e) && SendEnabled(e, a)
    ensures Locks(Send(seal, e, a))
  {
    var e' := Send(seal, e, a);
    assert HoldsGate(PcOf(e, a.thread)) <==> e.gate == HeldBy(a.thread);
    assert PcOf(e, a.thread).Encrypting? <==> e.cipher == Sender(a.thread);
    forall t: nat
      ensures HoldsGate(PcOf(e', t)) <==> e'.gate == HeldBy(t)
      ensures PcOf(e', t).Encrypting? <==> e'.cipher == Sender(t)
    {
      assert HoldsGate(PcOf(e, t)) <==> e.gate == HeldBy(t);
      assert PcOf(e, t).Encrypting? <==> e.cipher == Sender(t);
    }
  }

  lemma SendPayloads(seal: Sealing, e: End, a: SendAct)
    requires Payloads(e) && SendEnabled(e, a)
    ensures Payloads(Send(seal, e, a))
  {
    var e' := Send(seal, e, a);
    assert Sized(PcOf(e, a.thread));
    forall t: nat ensures Sized(PcOf(e', t)) { assert Sized(PcOf(e, t)); }
  }

  lemma CurrentIs(e: End, t: nat)
    requires Locks(e) && HoldsGate(PcOf(e, t))
    ensures e.gate == HeldBy(t) && Current(e) == PcOf(e, t)
  {}

  lemma EncryptOrdered(seal: Sealing, now: Pc, count: nat, log: seq<seq<byte>>, wire: seq<byte>, tear: Option<nat>, p: seq<byte>)
    requires InOrder(seal, now, count, log, wire, tear) && !now.Writing? && count < NONCE_LIMIT
    ensures InOrder(seal, Writing(Codec.Framed(seal(count, p)), 0), count + 1, log + [p], wire, tear)
  {
    hide OnWire;
    assert (log + [p])[..|log|] == log;
    if tear.Some? { assert (log + [p])[..tear.value] == log[..tear.value]; }
  }

  lemma WriteOrdered(seal: Sealing, now: Pc, count: nat, log: seq<seq<byte>>, wire: seq<byte>, tear: Option<nat>, k: nat)
    requires InOrder(seal, now, count, log, wire, tear) && now.Writing? && now.sent + k <= |now.frame|
    ensures InOrder(seal, Writing(now.frame, now.sent + k), count, log, wire + now.frame[now.sent..now.sent + k], tear)
  {
    hide OnWire;
    assert now.frame[..now.sent] + now.frame[now.sent..now.sent + k] == now.frame[..now.sent + k];
  }

  lemma FinishOrdered(seal: Sealing, now: Pc, count: nat, log: seq<seq<byte>>, wire: seq<byte>, tear: Option<nat>)
    requires InOrder(seal, now, count, log, wire, tear) && now.Writing? && now.sent == |now.frame|
    ensures InOrder(seal, Idle, count, log, wire, tear)
  {
    var n := |log|;
    assert log == log[..n - 1] + [log[n - 1]];
    OnWireAppend(seal, log[..n - 1], log[n - 1]);
    hide OnWire;
    assert now.frame[..now.sent] == now.frame;
  }

  lemma TearOrdered(seal: Sealing, now: Pc, count: nat, log: seq<seq<byte>>, wire: seq<byte>, tear: Option<nat>)
    requires InOrder(seal, now, count, log, wire, tear) && now.Writing?
    ensures InOrder(seal, Idle, count, log, wire, if tear.None? && |log| > 0 then Some(|log| - 1) else tear)
  {
    hide OnWire;
  }

  lemma SendOrdered(seal: Sealing, e: End, a: SendAct)
    requires Locks(e) && Ordered(seal, e) && SendEnabled(e, a)
    ensures Ordered(seal, Send(seal, e, a))
  {
    var t, now := a.thread, Current(e);
    var pc := PcOf(e, t);
    if HoldsGate(pc) { CurrentIs(e, t); } else { NotHolder(e, t); }
    hide Locks, InOrder;
    match a
    case Call(_, _) =>
      assert Current(Send(seal, e, a)) == now;
    case TakeGate(_) => SameOrder(seal, now, pc.payload, e);
    case TakeCipher(_) => SameOrder(seal, now, pc.payload, e);
    case Encrypt(_) =>
      SameOrder(seal, now, pc.payload, e);
      if e.sendCount < NONCE_LIMIT { EncryptOrdered(seal, now, e.sendCount, e.log, e.wire, e.tear, pc.payload); }
    case WriteSome(_, k) => WriteOrdered(seal, now, e.sendCount, e.log, e.wire, e.tear, k);
    case Finish(_) => FinishOrdered(seal, now, e.sendCount, e.log, e.wire, e.tear);
    case WriteFails(_) => TearOrdered(seal, now, e.sendCount, e.log, e.wire, e.tear);
  }

  /** Between writes it does not matter where the thread past the gate is. */
  lemma SameOrder(seal: Sealing, now: Pc, p: seq<byte>, e: End)
    requires InOrder(seal, now, e.sendCount, e.log, e.wire, e.tear) && !now.Writing?
    ensures InOrder(seal, Idle, e.sendCount, e.log, e.wire, e.tear)
    ensures InOrder(seal, AtCipher(p), e.sendCount, e.log, e.wire, e.tear)
    ensures InOrder(seal, Encrypting(p), e.sendCount, e.log, e.wire, e.tear)
  {
    hide OnWire;
  }

  lemma NotHolder(e: End, t: nat)
    requires Locks(e) && !HoldsGate(PcOf(e, t))
    ensures e.gate != HeldBy(t)
  {}

  /** Whatever a sender does, its log and its wire only grow and its first tear stays the first. */
  lemma SendGrows(seal: Sealing, e: End, a: SendAct)
    requires SendEnabled(e, a)
    ensures var e' := Send(seal, e, a);
            && e.log <= e'.log && e.wire <= e'.wire && (e.tear.Some? ==> e'.tear == e.tear)
            && e'.reader == e.reader && e'.recvCount == e.recvCount && e'.got == e.got && e'.taken == e.taken
  {}

  lemma ReceivedGrows(seal: Sealing, e: End, far: End, far': End)
    requires Received(seal, e, far)
    requires far.log <= far'.log && far.wire <= far'.wire && (far.tear.Some? ==> far'.tear == far.tear)
    ensures Received(seal, e, far')
  {
    assert far'.wire[..e.taken] == far.wire[..e.taken];
  }

  lemma ReceivedSame(seal: Sealing, e: End, e': End, far: End)
    requires Received(seal, e, far)
    requires e'.reader == e.reader && e'.recvCount == e.recvCount && e'.got == e.got && e'.taken == e.taken
    ensures Received(seal, e', far)
  {}

  // ----- the receiving side keeps them -----

  lemma RecvLocal(seal: Sealing, e: End, far: End, a: RecvAct)
    requires EndOk(seal, e) && RecvEnabled(e, far, a)
    ensures EndOk(seal, Recv(seal, e, far, a))
  {
    var e' := Recv(seal, e, far, a);
    assert forall t: nat :: PcOf(e', t) == PcOf(e, t);
    assert Current(e') == Current(e);
    assert Locks(e') by {
      forall t: nat
        ensures HoldsGate(PcOf(e', t)) <==> e'.gate == HeldBy(t)
        ensures PcOf(e', t).Encrypting? <==> e'.cipher == Sender(t)
      {
        assert HoldsGate(PcOf(e, t)) <==> e.gate == HeldBy(t);
        assert PcOf(e, t).Encrypting? <==> e.cipher == Sender(t);
      }
    }
    assert Payloads(e') by {
      forall t: nat ensures Sized(PcOf(e', t)) { assert Sized(PcOf(e, t)); }
    }
  }

  /** A message wholly on the wire starts where the ones before it end. */
  lemma WholeOnWire(seal: Sealing, log: seq<seq<byte>>, whole: nat, k: nat, wire: seq<byte>)
    requires k < whole <= |log| && OnWire(seal, log[..whole]) <= wire
    ensures OnWire(seal, log[..k]) <= wire && Codec.Framed(seal(k, log[k])) <= wire[|OnWire(seal, log[..k])|..]
  {
    assert log[..whole][..k + 1] == log[..k + 1] == log[..k] + [log[k]];
    OnWirePrefix(seal, log[..whole], k + 1);
    OnWireAppend(seal, log[..k], log[k]);
    hide OnWire;
    var b, f := OnWire(seal, log[..k]), Codec.Framed(seal(k, log[k]));
    PrefixDrop(b, f, wire);
  }

  lemma PrefixDrop(b: seq<byte>, f: seq<byte>, wire: seq<byte>)
    requires b + f <= wire
    ensures b <= wire && f <= wire[|b|..]
  {
    assert wire[|b|..][..|f|] == f;
  }

  lemma BusyWire(seal: Sealing, now: Pc, count: nat, log: seq<seq<byte>>, wire: seq<byte>)
    requires InOrder(seal, now, count, log, wire, None) && now.Writing?
    ensures |wire| <= |OnWire(seal, log)|
  {
    var n := |log|;
    assert log == log[..n - 1] + [log[n - 1]];
    OnWireAppend(seal, log[..n - 1], log[n - 1]);
  }

  /** Past the `k` messages already read and before the first tear, the wire is a prefix of the next
      frame or starts with all of it. */
  lemma NextOnWire(seal: Sealing, now: Pc, count: nat, log: seq<seq<byte>>, wire: seq<byte>, tear: Option<nat>, k: nat)
    requires InOrder(seal, now, count, log, wire, tear)
    requires k <= |log| && (tear.Some? ==> k < tear.value)
    requires |OnWire(seal, log[..k])| < |wire|
    ensures k < |log| && OnWire(seal, log[..k]) <= wire
    ensures var f := Codec.Framed(seal(k, log[k]));
            var x := wire[|OnWire(seal, log[..k])|..];
            x <= f || f <= x
  {
    hide OnWire;
    var n := |log|;
    assert log[..n] == log;
    var whole := if tear.Some? then tear.value else if now.Writing? then n - 1 else n;
    assert OnWire(seal, log[..whole]) <= wire;
    if k < whole {
      WholeOnWire(seal, log, whole, k, wire);
    } else if now.Writing? {
      BusyWire(seal, now, count, log, wire);
    }
  }

  /** A collected frame is the text of its ciphertext. */
  lemma CollectedFrame(buf: seq<byte>)
    requires |buf| >= 4 && Wanted(buf) == 0
    ensures buf == Codec.Framed(buf[4..])
  {
    ToFromBytes(buf[..4]);
  }

  /** The bytes read past the messages received so far agree with the next frame sent. */
  lemma AgreesWithNext(seal: Sealing, e: End, far: End, read: seq<byte>, rest: seq<byte>)
    requires Tagged(seal) && Ordered(seal, far) && e.got <= far.log
    requires far.tear.Some? ==> |e.got| < far.tear.value
    requires rest != [] && read == OnWire(seal, e.got) + rest && read <= far.wire
    ensures |e.got| < |far.log|
    ensures var f := Codec.Framed(seal(|e.got|, far.log[|e.got|])); rest <= f || f <= rest
  {
    var k := |e.got|;
    assert far.log[..k] == e.got;
    NextOnWire(seal, Current(far), far.sendCount, far.log, far.wire, far.tear, k);
    hide OnWire;
    var b := OnWire(seal, e.got);
    var x := far.wire[|b|..];
    assert rest == far.wire[..|read|][|b|..] == x[..|rest|];
  }

  lemma HeaderFits(seal: Sealing, p: seq<byte>, n: nat, buf: seq<byte>)
    requires Tagged(seal) && |p| <= MAX_PLAINTEXT
    requires var f := Codec.Framed(seal(n, p)); |buf| >= 4 && (buf <= f || f <= buf)
    ensures FromBytes(buf[..4]) == |seal(n, p)| <= Codec.MAX_FRAME
  {
    var f := Codec.Framed(seal(n, p));
    assert buf[..4] == f[..4] == ToBytes(|seal(n, p)|, 4);
    Widths();
    NumberRoundTrip(|seal(n, p)|, 4);
  }

  lemma PullReceived(seal: Sealing, e: End, far: End, n: nat)
    requires Tagged(seal) && Payloads(far) && Ordered(seal, far) && Received(seal, e, far)
    requires RecvEnabled(e, far, Pull(n))
    ensures Received(seal, Recv(seal, e, far, Pull(n)), far)
  {
    hide Ordered, Payloads, OnWire, FromBytes, Tagged, Collected, Wanted, Codec.Framed;
    var buf := e.reader.buf + far.wire[e.taken..e.taken + n];
    var read := far.wire[..e.taken + n];
    assert read == OnWire(seal, e.got) + buf;
    if |buf| >= 4 { HeaderOk(seal, e, far, read, buf); }
    CollectedParts(e.reader.buf, n, buf);
  }

  /** Collecting goes on until a header is refused or a frame is complete. */
  lemma CollectedParts(buf: seq<byte>, n: nat, buf': seq<byte>)
    requires 1 <= n <= Wanted(buf) && |buf'| == |buf| + n && buf <= buf'
    ensures match Collected(buf')
            case Collecting(b) => b == buf' && Wanted(b) > 0
            case HasFrame(ct) => buf' == Codec.Framed(ct) && |ct| <= Codec.MAX_FRAME
            case Refused => |buf'| >= 4 && FromBytes(buf'[..4]) > Codec.MAX_FRAME
            case _ => false
  {
    if |buf'| >= 4 {
      if |buf| >= 4 { assert buf'[..4] == buf[..4]; }
      if Wanted(buf') == 0 { CollectedFrame(buf'); }
    }
  }

  /** A length read before the first tear is a length that was sent. */
  lemma HeaderOk(seal: Sealing, e: End, far: End, read: seq<byte>, buf: seq<byte>)
    requires Tagged(seal) && Payloads(far) && Ordered(seal, far) && e.got <= far.log
    requires |buf| >= 4 && read == OnWire(seal, e.got) + buf && read <= far.wire
    ensures (far.tear.Some? ==> |e.got| < far.tear.value) ==> FromBytes(buf[..4]) <= Codec.MAX_FRAME
  {
    if far.tear.Some? ==> |e.got| < far.tear.value {
      AgreesWithNext(seal, e, far, read, buf);
      hide Ordered, OnWire;
      HeaderFits(seal, far.log[|e.got|], |e.got|, buf);
    }
  }

  /** The next frame read before the first tear is the next frame sent. */
  lemma FrameOk(seal: Sealing, e: End, far: End, read: seq<byte>, ct: seq<byte>)
    requires Tagged(seal) && Payloads(far) && Ordered(seal, far) && e.got <= far.log
    requires |ct| <= Codec.MAX_FRAME && read == OnWire(seal, e.got) + Codec.Framed(ct) && read <= far.wire
    requires far.tear.Some? ==> |e.got| < far.tear.value
    ensures |e.got| < |far.log| && ct == seal(|e.got|, far.log[|e.got|])
  {
    AgreesWithNext(seal, e, far, read, Codec.Framed(ct));
    hide Ordered, OnWire;
    var k := |e.got|;
    HeaderFits(seal, far.log[k], k, Codec.Framed(ct));
    SameFrame(ct, seal(k, far.log[k]));
  }

  lemma SameFrame(x: seq<byte>, y: seq<byte>)
    requires |x| <= Codec.MAX_FRAME && FromBytes(Codec.Framed(x)[..4]) == |y|
    requires Codec.Framed(x) <= Codec.Framed(y) || Codec.Framed(y) <= Codec.Framed(x)
    ensures x == y
  {
    Widths();
    NumberRoundTrip(|x|, 4);
    assert Codec.Framed(x)[..4] == ToBytes(|x|, 4);
    assert Codec.Framed(x) == Codec.Framed(y);
    assert x == Codec.Framed(x)[4..] && y == Codec.Framed(y)[4..];
  }

  lemma OpenReceived(seal: Sealing, e: End, far: End)
    requires Tagged(seal) && Payloads(far) && Ordered(seal, far) && Received(seal, e, far)
    requires RecvEnabled(e, far, OpenFrame)
    ensures Received(seal, Recv(seal, e, far, OpenFrame), far)
  {
    var k, ct := |e.got|, e.reader.ct;
    var read := far.wire[..e.taken];
    if far.tear.Some? ==> k < far.tear.value { FrameOk(seal, e, far, read, ct); }
    if k < |far.log| && ct == seal(k, far.log[k]) {
      OnWireAppend(seal, e.got, far.log[k]);
      assert read == OnWire(seal, e.got + [far.log[k]]) + [];
    }
  }

  lemma RecvReceived(seal: Sealing, e: End, far: End, a: RecvAct)
    requires Tagged(seal) && EndOk(seal, far) && Received(seal, e, far) && RecvEnabled(e, far, a)
    ensures Received(seal, Recv(seal, e, far, a), far)
  {
    match a
    case Pull(n) => PullReceived(seal, e, far, n);
    case OpenFrame => OpenReceived(seal, e, far);
    case LockToOpen =>
    case HangUp =>
  }

  lemma StepInv(seal: Sealing, st: State, act: Act)
    requires Tagged(seal) && Inv(seal, st) && Enabled(st, act)
    ensures Inv(seal, Apply(seal, st, act))
  {
    hide Locks, Payloads, Ordered, Received, Send, Recv, SendEnabled, RecvEnabled;
    var near, far := Near(st, act.first), Near(st, !act.first);
    match act
    case Sends(_, s) =>
      var near' := Send(seal, near, s);
      SendLocks(seal, near, s);
      SendPayloads(seal, near, s);
      SendOrdered(seal, near, s);
      SendGrows(seal, near, s);
      ReceivedGrows(seal, far, near, near');
      ReceivedSame(seal, near, near', far);
    case Receives(_, r) =>
      RecvLocal(seal, near, far, r);
      RecvReceived(seal, near, far, r);
      RecvKeeps(seal, near, far, r);
      ReceivedGrows(seal, far, near, Recv(seal, near, far, r));
  }

  lemma RecvKeeps(seal: Sealing, e: End, far: End, a: RecvAct)
    requires RecvEnabled(e, far, a)
    ensures var e' := Recv(seal, e, far, a); e'.log == e.log && e'.wire == e.wire && e'.tear == e.tear
  {}

  lemma StartInv(seal: Sealing)
    ensures Inv(seal, START)
  {}

  lemma {:induction false} RunInv(seal: Sealing, path: seq<State>, acts: seq<Act>, i: nat)
    requires Tagged(seal) && IsRun(seal, path, acts) && i < |path|
    ensures Inv(seal, path[i])
  {
    hide Inv, Enabled, Apply, Tagged;
    if i == 0 {
      StartInv(seal);
    } else {
      RunInv(seal, path, acts, i - 1);
      StepInv(seal, path[i - 1], acts[i - 1]);
    }
  }

  // ----- what that means for every run -----

  /** In every reachable state, after any interleaving, any short reads and writes and any failed
      writes: what `recv` has returned is a prefix of the payloads in the order they were encrypted. */
  lemma DeliveredInOrder(seal: Sealing, path: seq<State>, acts: seq<Act>, i: nat, first: bool)
    requires Tagged(seal) && IsRun(seal, path, acts) && i < |path|
    ensures Near(path[i], first).got <= Near(path[i], !first).log
  {
    RunInv(seal, path, acts, i);
  }

  /** As long as no write has failed the reader never refuses a frame, and once it has taken every
      byte of finished frames it has returned every payload. */
  lemma NothingLost(seal: Sealing, path: seq<State>, acts: seq<Act>, i: nat, first: bool)
    requires Tagged(seal) && IsRun(seal, path, acts) && i < |path|
    requires Near(path[i], !first).tear.None?
    ensures var e, far := Near(path[i], first), Near(path[i], !first);
            && !e.reader.Refused?
            && (e.reader.Collecting? && e.taken == |far.wire| && (forall t: nat :: !PcOf(far, t).Writing?) ==>
                  e.got == far.log)
  {
    RunInv(seal, path, acts, i);
    var e, far := Near(path[i], first), Near(path[i], !first);
    if e.reader.Collecting? && e.taken == |far.wire| && forall t: nat :: !PcOf(far, t).Writing? {
      CaughtUp(seal, e, far);
    }
  }

  lemma CaughtUp(seal: Sealing, e: End, far: End)
    requires Tagged(seal) && Payloads(far) && Ordered(seal, far) && Received(seal, e, far)
    requires far.tear.None? && e.reader.Collecting? && e.taken == |far.wire| && !Current(far).Writing?
    ensures e.got == far.log
  {
    var k, n := |e.got|, |far.log|;
    assert far.wire[..e.taken] == far.wire;
    if k < n {
      assert far.log[..n] == far.log && far.log[..k] == e.got;
      WholeOnWire(seal, far.log, n, k, far.wire);
      var f, buf := Codec.Framed(seal(k, far.log[k])), e.reader.buf;
      hide OnWire;
      assert far.wire[|OnWire(seal, e.got)|..] == buf;
      WholeFrameWantsNothing(seal, far.log[k], k, buf);
    }
  }

  lemma WholeFrameWantsNothing(seal: Sealing, p: seq<byte>, n: nat, buf: seq<byte>)
    requires Tagged(seal) && |p| <= MAX_PLAINTEXT && Codec.Framed(seal(n, p)) <= buf
    ensures Wanted(buf) <= 0
  {
    HeaderFits(seal, p, n, buf);
  }

  /** After a failed write the reader may refuse a frame, but only once it has returned every payload
      sent before the failure. */
  lemma RefusedOnlyPastTear(seal: Sealing, path: seq<State>, acts: seq<Act>, i: nat, first: bool)
    requires Tagged(seal) && IsRun(seal, path, acts) && i < |path|
    requires Near(path[i], first).reader.Refused?
    ensures var e, far := Near(path[i], first), Near(path[i], !first);
            far.tear.Some? && far.tear.value < |far.log| && far.log[..far.tear.value] <= e.got
  {
    RunInv(seal, path, acts, i);
    var e, far := Near(path[i], first), Near(path[i], !first);
    assert e.got == far.log[..|e.got|];
  }

  lemma {:induction false} WireAppend(cts: seq<seq<byte>>, ct: seq<byte>)
    ensures Codec.Wire(cts + [ct]) == Codec.Wire(cts) + Codec.Framed(ct)
  {
    if cts == [] {
      assert ([ct])[1..] == [] && Codec.Wire([ct]) == Codec.Framed(ct) + Codec.Wire([]);
    } else {
      WireAppend(cts[1..], ct);
      assert (cts + [ct])[1..] == cts[1..] + [ct];
    }
  }

  lemma {:induction false} OnWireIsFrames(seal: Sealing, log: seq<seq<byte>>)
    ensures OnWire(seal, log) == Codec.Wire(Ciphertexts(seal, log))
  {
    if log != [] {
      var front := log[..|log| - 1];
      OnWireIsFrames(seal, front);
      assert Ciphertexts(seal, log) == Ciphertexts(seal, front) + [seal(|front|, log[|front|])];
      WireAppend(Ciphertexts(seal, front), seal(|front|, log[|front|]));
    }
  }

  /** Counter order is byte order: as long as no write has failed, cutting the wire into frames gives
      the ciphertexts of messages 0, 1, 2, ... in counter order, up to the frame being written. */
  lemma CounterOrderIsByteOrder(seal: Sealing, path: seq<State>, acts: seq<Act>, i: nat, first: bool)
    requires Tagged(seal) && IsRun(seal, path, acts) && i < |path| && Near(path[i], first).tear.None?
    ensures var e := Near(path[i], first);
            var cts := Ciphertexts(seal, e.log);
            && e.sendCount == |e.log|
            && e.wire <= Codec.Wire(cts)
            && Codec.ReadAll(e.wire) == (cts[..Codec.Whole(cts, |e.wire|)], Codec.PeerClosed)
            && ((forall t: nat :: !PcOf(e, t).Writing?) ==> Codec.ReadAll(e.wire).0 == cts)
  {
    RunInv(seal, path, acts, i);
    var e := Near(path[i], first);
    var cts, now := Ciphertexts(seal, e.log), Current(e);
    WireIsPrefix(seal, now, e.sendCount, e.log, e.wire);
    CiphertextsFit(seal, e);
    hide *;
    assert e.wire == Codec.Wire(cts)[..|e.wire|];
    Codec.CutStream(cts, |e.wire|);
    if !now.Writing? {
      Codec.WholeIsAll(cts);
      assert cts[..|cts|] == cts;
    }
  }

  lemma CiphertextsFit(seal: Sealing, e: End)
    requires Tagged(seal) && Payloads(e)
    ensures Codec.Fits(Ciphertexts(seal, e.log))
  {}

  lemma WireIsPrefix(seal: Sealing, now: Pc, count: nat, log: seq<seq<byte>>, wire: seq<byte>)
    requires InOrder(seal, now, count, log, wire, None)
    ensures wire <= Codec.Wire(Ciphertexts(seal, log))
    ensures !now.Writing? ==> wire == Codec.Wire(Ciphertexts(seal, log))
  {
    var n := |log|;
    OnWireIsFrames(seal, log);
    if now.Writing? {
      assert log == log[..n - 1] + [log[n - 1]];
      OnWireAppend(seal, log[..n - 1], log[n - 1]);
    }
  }

  /** `send` takes a payload exactly when its ciphertext fits into a frame. */
  lemma CallTaken(seal: Sealing, e: End, t: nat, p: seq<byte>)
    requires SendEnabled(e, Call(t, p))
    ensures PcOf(Send(seal, e, Call(t, p)), t) == if |p| + 16 <= 65535 then AtGate(p) else Idle
  {}

  /** A thread that encrypts goes on to write its frame, and its payload is the next message, exactly when
      fewer than 2^64 - 1 messages have been encrypted before. */
  lemma CounterLasts(seal: Sealing, path: seq<State>, acts: seq<Act>, i: nat, first: bool, t: nat)
    requires Tagged(seal) && IsRun(seal, path, acts) && i < |path|
    requires PcOf(Near(path[i], first), t).Encrypting?
    ensures var e := Near(path[i], first);
            var p, e' := PcOf(e, t).payload, Send(seal, e, Encrypt(t));
            && (PcOf(e', t).Writing? <==> |e.log| < 0xFFFF_FFFF_FFFF_FFFF)
            && (if PcOf(e', t).Writing?
                then e'.log == e.log + [p] && PcOf(e', t) == Writing(Codec.Framed(seal(|e.log|, p)), 0)
                else PcOf(e', t).Idle? && e'.log == e.log && e'.wire == e.wire)
  {
    RunInv(seal, path, acts, i);
  }

  /** At most one thread is between the gate and the end of its write; nobody holds the cipher mutex
      while writing to the socket; and no frame is ever too large to write. */
  lemma NeverEncryptsWhileWriting(seal: Sealing, path: seq<State>, acts: seq<Act>, i: nat, first: bool, t: nat, u: nat)
    requires Tagged(seal) && IsRun(seal, path, acts) && i < |path|
    requires PcOf(Near(path[i], first), t).Writing?
    ensures var e := Near(path[i], first);
            && e.cipher != Sender(t)
            && (HoldsGate(PcOf(e, u)) ==> u == t)
            && !PcOf(e, u).Encrypting?
            && |PcOf(e, t).frame| <= 4 + Codec.MAX_FRAME
  {
    RunInv(seal, path, acts, i);
    var e := Near(path[i], first);
    CurrentIs(e, t);
    assert PcOf(e, t).Encrypting? <==> e.cipher == Sender(t);
    if HoldsGate(PcOf(e, u)) { CurrentIs(e, u); }
    assert e.log[|e.log| - 1] in e.log;
  }

  /** The reader can always keep draining: with a frame in hand or unread bytes, it can step now, or
      its own end's cipher mutex is held by a sender whose very next step releases it, whatever the
      state of the wire. */
  lemma ReaderNeverStarves(seal: Sealing, path: seq<State>, acts: seq<Act>, i: nat, first: bool)
    requires Tagged(seal) && IsRun(seal, path, acts) && i < |path|
    requires var e, far := Near(path[i], first), Near(path[i], !first);
             e.reader.HasFrame? || e.reader.Opening? || (e.reader.Collecting? && e.taken < |far.wire|)
    ensures var e, far := Near(path[i], first), Near(path[i], !first);
            || RecvEnabled(e, far, Pull(1)) || RecvEnabled(e, far, LockToOpen) || RecvEnabled(e, far, OpenFrame)
            || (&& e.cipher.Sender? && SendEnabled(e, Encrypt(e.cipher.thread))
                && RecvEnabled(Send(seal, e, Encrypt(e.cipher.thread)), far, LockToOpen))
  {
    RunInv(seal, path, acts, i);
    var e := Near(path[i], first);
    if e.cipher.Sender? {
      var t := e.cipher.thread;
      assert PcOf(e, t).Encrypting? <==> e.cipher == Sender(t);
    }
  }

  // ----- the object -----

  datatype LinkError = TooLong | Io(fault: Codec.Fault) | Crypto

  /** `SecureLink` as one thread at a time sees it. */
  class SecureLink {
    const seal: Sealing
    const stream: Codec.Stream
    var sendCount: nat
    var recvCount: nat

    constructor (seal: Sealing, stream: Codec.Stream)
      ensures this.seal == seal && this.stream == stream && sendCount == 0 && recvCount == 0
    {
      this.seal, this.stream, sendCount, recvCount := seal, stream, 0, 0;
    }

    /** A payload that is too long or a counter that is used up leaves everything as it was; otherwise
        the counter moves on and the frame, or as much of it as the stream takes, is on the wire. */
    method Send(payload: seq<byte>) returns (r: Result<(), LinkError>)
      requires Tagged(seal)
      modifies this`sendCount, stream`written, stream`room, stream`noise
      ensures r == Err(TooLong) <==> |payload| + 16 > 65535
      ensures r.Ok? <==> |payload| + 16 <= 65535 && old(sendCount) < 0xFFFF_FFFF_FFFF_FFFF && |payload| + 20 <= old(stream.room)
      ensures |payload| > MAX_PLAINTEXT ==>
        r == Err(TooLong) && sendCount == old(sendCount) && stream.written == old(stream.written) && stream.room == old(stream.room)
      ensures |payload| <= MAX_PLAINTEXT && old(sendCount) >= NONCE_LIMIT ==>
        r == Err(Crypto) && sendCount == old(sendCount) && stream.written == old(stream.written) && stream.room == old(stream.room)
      ensures |payload| <= MAX_PLAINTEXT && old(sendCount) < NONCE_LIMIT ==>
        && sendCount == old(sendCount) + 1
        && (r.Ok? <==> |payload| + TAG + 4 <= old(stream.room))
        && stream.room == (if r.Ok? then old(stream.room) - (|payload| + TAG + 4) else 0)
        && (r.Err? ==> r == Err(Io(if stream.jams then Codec.Failed else Codec.PeerClosed)))
        && stream.written == old(stream.written) +
             (if r.Ok? then Codec.Framed(seal(old(sendCount), payload))
              else Codec.Framed(seal(old(sendCount), payload))[..old(stream.room)])
    {
      if |payload| > MAX_PLAINTEXT { return Err(TooLong); }
      if sendCount >= NONCE_LIMIT { return Err(Crypto); }
      var ct := seal(sendCount, payload);
      sendCount := sendCount + 1;
      var w := stream.WriteFrame(ct);
      return if w.Ok? then Ok(()) else Err(Io(w.fault));
    }

    /** `sealed` is what the far end has encrypted: the ideal cipher answers from it. A frame that does
        not open leaves the counter as it was. */
    method Recv(sealed: seq<seq<byte>>) returns (r: Result<seq<byte>, LinkError>)
      modifies this`recvCount, stream`incoming, stream`noise
      ensures stream.incoming == Codec.ParseFrame(old(stream.incoming)).1
      ensures match Codec.ParseFrame(old(stream.incoming)).0
              case Err(fault) =>
                && recvCount == old(recvCount)
                && r == Err(Io(if fault == Codec.PeerClosed && stream.breaks then Codec.Failed else fault))
              case Ok(ct) =>
                match Unseal(seal, sealed, old(recvCount), ct)
                case Some(p) => r == Ok(p) && recvCount == old(recvCount) + 1
                case None => r == Err(Crypto) && recvCount == old(recvCount)
    {
      var frame := stream.ReadFrame();
      if frame.Err? { return Err(Io(frame.fault)); }
      var plain := Unseal(seal, sealed, recvCount, frame.value);
      if plain.None? { return Err(Crypto); }
      recvCount := recvCount + 1;
      return Ok(plain.value);
    }
  }

  // ----- the method and the machine -----

  /** The thread's steps `acts`, one after the other, lead from `e` to `e'`. */
  ghost predicate SendPath(seal: Sealing, e: End, acts: seq<SendAct>, e': End)
    decreases |acts|
  {
    if acts == [] then e == e' else SendEnabled(e, acts[0]) && SendPath(seal, Send(seal, e, acts[0]), acts[1..], e')
  }

  lemma {:induction false} PathAppend(seal: Sealing, e: End, acts: seq<SendAct>, e': End, act: SendAct)
    requires SendPath(seal, e, acts, e') && SendEnabled(e', act)
    ensures SendPath(seal, e, acts + [act], Send(seal, e', act))
    decreases |acts|
  {
    hide SendEnabled, Send;
    if acts == [] {
      assert [act][1..] == [];
    } else {
      PathAppend(seal, Send(seal, e, acts[0]), acts[1..], e', act);
      assert (acts + [act])[1..] == acts[1..] + [act];
    }
  }

  function Sum(pieces: seq<nat>): nat { if pieces == [] then 0 else Sum(pieces[..|pieces| - 1]) + pieces[|pieces| - 1] }

  /** What a call of `send` goes through up to its write, and then the pieces the stream takes. */
  function Steps(t: nat, p: seq<byte>, pieces: seq<nat>): seq<SendAct> {
    if pieces == [] then [Call(t, p), TakeGate(t), TakeCipher(t), Encrypt(t)]
    else Steps(t, p, pieces[..|pieces| - 1]) + [WriteSome(t, pieces[|pieces| - 1])]
  }

  ghost predicate Quiet(e: End, t: nat) { e.gate.Open? && e.cipher.Free? && PcOf(e, t).Idle? }

  /** Thread `t` waits for the gate, then for the cipher, then encrypts. */
  function Asked(e: End, t: nat, p: seq<byte>): End { At(e, t, AtGate(p)) }

  function Gated(e: End, t: nat, p: seq<byte>): End { At(e, t, AtCipher(p)).(gate := HeldBy(t)) }

  function Locked(e: End, t: nat, p: seq<byte>): End {
    At(e, t, Encrypting(p)).(gate := HeldBy(t), cipher := Sender(t))
  }

  function Sealed(seal: Sealing, e: End, t: nat, p: seq<byte>): End {
    if e.sendCount >= NONCE_LIMIT then At(e, t, Idle) else Begun(seal, e, t, p, 0)
  }

  lemma LockSteps(seal: Sealing, e: End, t: nat, p: seq<byte>)
    requires Quiet(e, t) && |p| <= MAX_PLAINTEXT
    ensures SendEnabled(e, Call(t, p)) && Send(seal, e, Call(t, p)) == Asked(e, t, p)
    ensures SendEnabled(Asked(e, t, p), TakeGate(t)) && Send(seal, Asked(e, t, p), TakeGate(t)) == Gated(e, t, p)
    ensures SendEnabled(Gated(e, t, p), TakeCipher(t)) && Send(seal, Gated(e, t, p), TakeCipher(t)) == Locked(e, t, p)
  {
    assert e.threads[t := AtGate(p)][t := AtCipher(p)] == e.threads[t := AtCipher(p)];
    assert e.threads[t := AtCipher(p)][t := Encrypting(p)] == e.threads[t := Encrypting(p)];
  }

  lemma EncryptStep(seal: Sealing, e: End, t: nat, p: seq<byte>)
    requires Quiet(e, t)
    ensures SendEnabled(Locked(e, t, p), Encrypt(t)) && Send(seal, Locked(e, t, p), Encrypt(t)) == Sealed(seal, e, t, p)
  {
    var f := Codec.Framed(seal(e.sendCount, p));
    assert e.threads[t := Encrypting(p)][t := Writing(f, 0)] == e.threads[t := Writing(f, 0)];
    assert e.threads[t := Encrypting(p)][t := Idle] == e.threads[t := Idle];
    assert e.wire + f[..0] == e.wire;
  }

  lemma ToWriting(seal: Sealing, e: End, t: nat, p: seq<byte>)
    requires Quiet(e, t) && |p| <= MAX_PLAINTEXT
    ensures SendPath(seal, e, Steps(t, p, []), Sealed(seal, e, t, p))
  {
    LockSteps(seal, e, t, p);
    EncryptStep(seal, e, t, p);
    hide SendPath, SendEnabled, Send, Asked, Gated, Locked, Sealed, Quiet;
    PathOfOne(seal, Locked(e, t, p), Encrypt(t));
    PathCons(seal, Gated(e, t, p), TakeCipher(t), [Encrypt(t)], Sealed(seal, e, t, p));
    PathCons(seal, Asked(e, t, p), TakeGate(t), [TakeCipher(t)] + [Encrypt(t)], Sealed(seal, e, t, p));
    PathCons(seal, e, Call(t, p), [TakeGate(t)] + ([TakeCipher(t)] + [Encrypt(t)]), Sealed(seal, e, t, p));
    assert [Call(t, p)] + ([TakeGate(t)] + ([TakeCipher(t)] + [Encrypt(t)])) == Steps(t, p, []);
  }

  lemma PathOfOne(seal: Sealing, e: End, act: SendAct)
    requires SendEnabled(e, act)
    ensures SendPath(seal, e, [act], Send(seal, e, act))
  {
    hide SendEnabled, Send;
    assert [act][1..] == [];
  }

  lemma PathCons(seal: Sealing, e: End, act: SendAct, acts: seq<SendAct>, e': End)
    requires SendEnabled(e, act) && SendPath(seal, Send(seal, e, act), acts, e')
    ensures SendPath(seal, e, [act] + acts, e')
  {
    hide SendEnabled, Send;
    assert ([act] + acts)[1..] == acts;
  }

  /** Thread `t` has sealed `p` and the first `k` bytes of its frame are on the wire. */
  function Begun(seal: Sealing, e: End, t: nat, p: seq<byte>, k: nat): End {
    var f := Codec.Framed(seal(e.sendCount, p));
    At(e, t, Writing(f, k)).(gate := HeldBy(t), sendCount := e.sendCount + 1, log := e.log + [p],
                             wire := e.wire + if k <= |f| then f[..k] else f)
  }

  lemma WriteStep(seal: Sealing, e: End, t: nat, p: seq<byte>, k: nat, n: nat)
    requires n > 0 && k + n <= |Codec.Framed(seal(e.sendCount, p))|
    ensures SendEnabled(Begun(seal, e, t, p, k), WriteSome(t, n))
    ensures Send(seal, Begun(seal, e, t, p, k), WriteSome(t, n)) == Begun(seal, e, t, p, k + n)
  {
    var f := Codec.Framed(seal(e.sendCount, p));
    assert f[..k] + f[k..k + n] == f[..k + n];
    assert e.wire + f[..k] + f[k..k + n] == e.wire + f[..k + n];
    assert e.threads[t := Writing(f, k)][t := Writing(f, k + n)] == e.threads[t := Writing(f, k + n)];
  }

  /** The end of the call: all of the frame is on the wire, or the write has failed. */
  function Ended(seal: Sealing, e: End, t: nat, p: seq<byte>, k: nat): End
    requires k <= |Codec.Framed(seal(e.sendCount, p))|
  {
    var f := Codec.Framed(seal(e.sendCount, p));
    At(e, t, Idle).(sendCount := e.sendCount + 1, log := e.log + [p], wire := e.wire + f[..k],
                    tear := if k < |f| && e.tear.None? then Some(|e.log|) else e.tear)
  }

  lemma EndStep(seal: Sealing, e: End, t: nat, p: seq<byte>, k: nat)
    requires Quiet(e, t) && k <= |Codec.Framed(seal(e.sendCount, p))|
    ensures var last := if k == |Codec.Framed(seal(e.sendCount, p))| then Finish(t) else WriteFails(t);
            SendEnabled(Begun(seal, e, t, p, k), last) && Send(seal, Begun(seal, e, t, p, k), last) == Ended(seal, e, t, p, k)
  {
    var f := Codec.Framed(seal(e.sendCount, p));
    assert e.threads[t := Writing(f, k)][t := Idle] == e.threads[t := Idle];
  }

  lemma {:induction false} WritesPath(seal: Sealing, e: End, t: nat, p: seq<byte>, pieces: seq<nat>)
    requires Quiet(e, t) && |p| <= MAX_PLAINTEXT && e.sendCount < NONCE_LIMIT
    requires (forall i | 0 <= i < |pieces| :: pieces[i] > 0) && Sum(pieces) <= |Codec.Framed(seal(e.sendCount, p))|
    ensures SendPath(seal, e, Steps(t, p, pieces), Begun(seal, e, t, p, Sum(pieces)))
  {
    hide SendPath, SendEnabled, Send, Begun, Quiet;
    if pieces == [] {
      ToWriting(seal, e, t, p);
    } else {
      var front, n := pieces[..|pieces| - 1], pieces[|pieces| - 1];
      WritesPath(seal, e, t, p, front);
      WriteStep(seal, e, t, p, Sum(front), n);
      PathAppend(seal, e, Steps(t, p, front), Begun(seal, e, t, p, Sum(front)), WriteSome(t, n));
    }
  }

  /** What the method does is what the thread's path through the machine does: an oversized payload
      changes nothing; a counter that is used up leaves the locks free and nothing sent; otherwise,
      however the stream takes the first `k` bytes of the frame, the call ends with just those on the
      wire, the counter moved on, the payload in the log and the locks free, and the write has failed
      exactly when they are not all. */
  lemma SendIsPath(seal: Sealing, e: End, t: nat, p: seq<byte>, pieces: seq<nat>)
    requires Quiet(e, t) && forall i | 0 <= i < |pieces| :: pieces[i] > 0
    ensures |p| > MAX_PLAINTEXT ==> SendPath(seal, e, [Call(t, p)], e)
    ensures |p| <= MAX_PLAINTEXT && e.sendCount >= NONCE_LIMIT ==> SendPath(seal, e, Steps(t, p, []), At(e, t, Idle))
    ensures |p| <= MAX_PLAINTEXT && e.sendCount < NONCE_LIMIT && Sum(pieces) <= |Codec.Framed(seal(e.sendCount, p))| ==>
              var k := Sum(pieces);
              var last := if k == |Codec.Framed(seal(e.sendCount, p))| then Finish(t) else WriteFails(t);
              SendPath(seal, e, Steps(t, p, pieces) + [last], Ended(seal, e, t, p, k))
  {
    if |p| > MAX_PLAINTEXT {
      assert SendEnabled(e, Call(t, p));
      PathOfOne(seal, e, Call(t, p));
    } else {
      hide SendPath, SendEnabled, Send, Begun, Ended, Quiet, Steps;
      ToWriting(seal, e, t, p);
      if e.sendCount < NONCE_LIMIT && Sum(pieces) <= |Codec.Framed(seal(e.sendCount, p))| {
        WritesPath(seal, e, t, p, pieces);
        EndStep(seal, e, t, p, Sum(pieces));
        PathAppend(seal, e, Steps(t, p, pieces), Begun(seal, e, t, p, Sum(pieces)),
                   if Sum(pieces) == |Codec.Framed(seal(e.sendCount, p))| then Finish(t) else WriteFails(t));
      }
    }
  }
}
