/** One file transfer between two honest nodes over a FIFO link (core/src/files.rs): the sending
    thread, both readers and the answering thread interleave between their critical sections and
    sends, and timeouts, read, write and link failures, cancellation and leaving may strike anywhere. */
module Transfer {
  import opened Bytes
  import opened TransferTable

  /** What is offered (`size`, `sha`) and what is read when streaming (`content`). */
  datatype Config = Config(peer: PeerId, content: seq<byte>, size: nat, sha: string, hash: Hash)

  /** Sizes are 64-bit numbers; what is read may be longer than that only if the offer leaves room for one
      chunk below 2^64. */
  predicate Roomy(c: Config) { c.size < U64 && (c.size + CHUNK_SIZE < U64 || |c.content| < U64) }

  predicate Unchanged(c: Config) { c.size == |c.content| && c.sha == c.hash(c.content) }

  /** Where `send_file_to` is. */
  datatype SendPc =
    | Fresh | Offering | Awaiting | Opening | Streaming | Loaded(data: seq<byte>) | Announcing
    | Aborting | Finishing(ok: bool) | Reporting(ok: bool) | Over

  datatype Sender = Sender(
    pc: SendPc, unread: seq<byte>, seqNo: nat, waiter: bool, target: bool,
    channel: seq<Decision>, reports: seq<bool>, gone: bool)

  /** Where `respond_offer` is: the offer taken, the peer looked up and found, the entry made, the
      refusal sent. */
  datatype AnswerPc = Idle | Taken(accept: bool, o: Offer) | Found(accept: bool, o: Offer) | Inserted | Declined

  /** The sender in the receiver's map of peers: there; taken out by `peer_gone`, which has still to
      cancel; cancelled; or drained by the receiver's own `leave`, which cancels nothing. */
  datatype Bond = Linked | Parting | Parted | Left

  /** Where the receiving reader is, between two of its sections. */
  datatype ReadPc = Ready | Rejecting | Stopping | Telling(ok: bool)

  datatype Receiver = Receiver(
    offer: Option<Offer>, pc: AnswerPc, active: Option<Active>, reader: ReadPc, reports: seq<bool>, bond: Bond)

  datatype Down = OfferMsg | ChunkMsg(seqNo: nat, data: seq<byte>) | DoneMsg | AbortMsg

  datatype Up = AcceptMsg | DeclineMsg | StopMsg

  /** History: the sender saw Accept; the receiver made the entry; the last step that should have ended
      the transfer at the receiver did not; a chunk could not be written; a message or a party was
      lost; the file at the moment the sender's Done was taken. */
  datatype History = History(accepted: bool, inserted: bool, missed: bool, diskFailed: bool, lost: bool, saved: Option<seq<byte>>)

  datatype State = State(s: Sender, r: Receiver, down: seq<Down>, up: seq<Up>, dead: bool, h: History)

  function Init(c: Config): State {
    State(Sender(Fresh, c.content, 0, false, false, [], [], false),
          Receiver(None, Idle, None, Ready, [], Linked), [], [], false,
          History(false, false, false, false, false, None))
  }

  datatype Action =
    | Register | SendOffer(ok: bool) | Decide | Timeout | OpenFile(ok: bool)
    | ReadFile(n: nat) | ReadEnd | ReadFails | Quit
    | SendChunk(ok: bool) | SendDone(ok: bool) | SendAbort(ok: bool) | FinishOut | ReportOut
    | HearUp | CancelOut
    | HearDown(ok: bool) | DropActive | SendStop(ok: bool) | ReportIn | PartIn | CancelIn | LeaveIn
    | Respond(accept: bool) | LookUp | GiveUp | Insert | SendAccept(ok: bool) | SendDecline(ok: bool) | ReportDecline
    | Cut(k: nat, m: nat)

  predicate BySender(a: Action) {
    a.Register? || a.SendOffer? || a.Decide? || a.Timeout? || a.OpenFile? || a.ReadFile? || a.ReadEnd? || a.ReadFails?
    || a.Quit? || a.SendChunk? || a.SendDone? || a.SendAbort? || a.FinishOut? || a.ReportOut?
  }

  predicate SenderEnabled(st: State, a: Action)
    requires BySender(a)
  {
    var s := st.s;
    match a
    case Register => s.pc.Fresh?
    case SendOffer(ok) => s.pc.Offering? && (ok ==> !st.dead)
    case Decide => s.pc.Awaiting? && s.channel != []
    case Timeout => s.pc.Awaiting? && s.channel == []
    case OpenFile(_) => s.pc.Opening?
    case ReadFile(n) => s.pc.Streaming? && 1 <= n <= CHUNK_SIZE && n <= |s.unread|
    case ReadEnd => s.pc.Streaming? && s.unread == []
    case ReadFails => s.pc.Streaming?
    case Quit => s.pc.Streaming?
    case SendChunk(ok) => s.pc.Loaded? && (ok ==> !st.dead)
    case SendDone(ok) => s.pc.Announcing? && (ok ==> !st.dead)
    case SendAbort(ok) => s.pc.Aborting? && (ok ==> !st.dead)
    case FinishOut => s.pc.Finishing?
    case ReportOut => s.pc.Reporting?
  }

  function Post(st: State, ok: bool, m: Down): State {
    if ok then st.(down := st.down + [m]) else st.(h := st.h.(lost := true))
  }

  function SenderApply(st: State, a: Action): State
    requires BySender(a) && SenderEnabled(st, a)
  {
    var s := st.s;
    match a
    case Register => st.(s := s.(pc := Offering, waiter := true, target := true))
    case SendOffer(ok) => Post(st, ok, OfferMsg).(s := s.(pc := if ok then Awaiting else Finishing(false)))
    case Decide =>
      if s.channel[0].Accept?
      then st.(s := s.(pc := Opening, channel := s.channel[1..]), h := st.h.(accepted := true))
      else st.(s := s.(pc := Finishing(false), channel := s.channel[1..]))
    case Timeout => st.(s := s.(pc := Aborting))
    case OpenFile(ok) => st.(s := s.(pc := if ok then Streaming else Aborting))
    case ReadFile(n) => st.(s := s.(pc := Loaded(s.unread[..n]), unread := s.unread[n..]))
    case ReadEnd => st.(s := s.(pc := Announcing))
    case ReadFails => st.(s := s.(pc := Aborting))
    case Quit => st.(s := s.(pc := Over), h := st.h.(lost := true))
    case SendChunk(ok) =>
      Post(st, ok, ChunkMsg(s.seqNo, s.pc.data))
        .(s := if ok then s.(pc := Streaming, seqNo := (s.seqNo + 1) % U32) else s.(pc := Finishing(false)))
    case SendDone(ok) => Post(st, ok, DoneMsg).(s := s.(pc := Finishing(true)))
    case SendAbort(ok) => Post(st, ok, AbortMsg).(s := s.(pc := Finishing(false)))
    case FinishOut => st.(s := s.(pc := Reporting(s.pc.ok), waiter := false, target := false))
    case ReportOut => st.(s := s.(pc := Over, reports := s.reports + [s.pc.ok]))
  }

  /** An offer is being accepted; the entry has not been made. */
  predicate Answering(pc: AnswerPc) { (pc.Taken? || pc.Found?) && pc.accept }

  predicate ByReceiver(a: Action) {
    a.DropActive? || a.SendStop? || a.ReportIn? || a.PartIn? || a.CancelIn? || a.LeaveIn? || a.Respond? || a.LookUp?
    || a.GiveUp? || a.Insert?
    || a.SendAccept? || a.SendDecline? || a.ReportDecline?
  }

  predicate ReceiverEnabled(st: State, a: Action)
    requires ByReceiver(a)
  {
    var r := st.r;
    match a
    case DropActive => r.reader.Rejecting?
    case SendStop(ok) => r.reader.Stopping? && (ok ==> !st.dead)
    case ReportIn => r.reader.Telling?
    case PartIn => r.reader.Ready? && r.bond.Linked?
    case CancelIn => r.reader.Ready? && r.bond.Parting?
    case LeaveIn => r.bond.Linked?
    case Respond(_) => r.offer.Some? && r.pc.Idle?
    case LookUp => r.pc.Taken?
    case GiveUp => r.pc.Found? && r.pc.accept
    case Insert => r.pc.Found? && r.pc.accept
    case SendAccept(ok) => r.pc.Inserted? && (ok ==> !st.dead)
    case SendDecline(ok) => r.pc.Found? && !r.pc.accept && (ok ==> !st.dead)
    case ReportDecline => r.pc.Declined?
  }

  function Reply(st: State, ok: bool, m: Up): State {
    if ok then st.(up := st.up + [m]) else st.(h := st.h.(lost := true))
  }

  function ReceiverApply(st: State, a: Action): State
    requires ByReceiver(a) && ReceiverEnabled(st, a)
  {
    var r := st.r;
    match a
    case DropActive => st.(r := r.(active := None, reader := Stopping), h := st.h.(missed := Answering(r.pc)))
    case SendStop(ok) => Reply(st, ok, StopMsg).(r := r.(reader := Telling(false)))
    case ReportIn => st.(r := r.(reader := Ready, reports := r.reports + [r.reader.ok]))
    case PartIn => st.(r := r.(bond := Parting), h := st.h.(lost := true))
    case CancelIn =>
      st.(r := r.(bond := Parted, offer := None, active := None, reader := if r.active.Some? then Telling(false) else Ready),
          h := st.h.(lost := true, missed := Answering(r.pc)))
    case LeaveIn =>
      st.(r := r.(bond := Left), h := st.h.(lost := true, missed := Answering(r.pc) || r.active.Some?))
    case Respond(accept) => st.(r := r.(offer := None, pc := Taken(accept, r.offer.value)))
    case LookUp =>
      st.(r := r.(pc := if r.bond.Linked? then Found(r.pc.accept, r.pc.o) else if r.pc.accept then Idle else Declined))
    case GiveUp => st.(r := r.(pc := Idle))
    case Insert => st.(r := r.(active := Some(Begin(r.pc.o)), pc := Inserted), h := st.h.(inserted := true))
    case SendAccept(ok) => Reply(st, ok, AcceptMsg).(r := r.(pc := Idle))
    case SendDecline(ok) => Reply(st, ok, DeclineMsg).(r := r.(pc := Declined))
    case ReportDecline => st.(r := r.(pc := Idle, reports := r.reports + [false]))
  }

  /** A side cancels at most once, when its peer is gone; what is in flight may still arrive after
      that, but not while the reader is in `peer_gone`. */
  predicate LinkEnabled(st: State, a: Action)
    requires !BySender(a) && !ByReceiver(a)
  {
    match a
    case HearUp => st.up != []
    case CancelOut => !st.s.gone
    case HearDown(_) => st.down != [] && st.r.reader.Ready? && !st.r.bond.Parting?
    case Cut(k, m) => k <= |st.down| && m <= |st.up|
  }

  function Hear(c: Config, r: Receiver, m: Down, ok: bool): Receiver {
    match m
    case OfferMsg => r.(offer := Some(Offer(c.peer, c.size, c.sha)))
    case ChunkMsg(seqNo, data) =>
      if r.active.None? then r else (
        match TakeChunk(r.active.value, seqNo, data, ok)
        case Stored(a) => r.(active := Some(a))
        case Problem => r.(reader := Rejecting))
    case DoneMsg =>
      if r.active.None? then r else r.(active := None, reader := Telling(Complete(c.hash, r.active.value)))
    case AbortMsg =>
      r.(offer := None, active := None, reader := if r.active.Some? then Telling(false) else Ready)
  }

  function Note(h: History, r: Receiver, m: Down, ok: bool): History {
    match m
    case OfferMsg => h
    case ChunkMsg(_, _) => if r.active.Some? && !ok then h.(diskFailed := true) else h
    case DoneMsg =>
      h.(missed := Answering(r.pc), saved := if r.active.Some? then Some(r.active.value.written) else h.saved)
    case AbortMsg => h.(missed := Answering(r.pc))
  }

  function LinkApply(c: Config, st: State, a: Action): State
    requires !BySender(a) && !ByReceiver(a) && LinkEnabled(st, a)
  {
    match a
    case HearUp =>
      var s := st.s;
      var s' := if s.waiter && !st.up[0].StopMsg?
                then s.(channel := s.channel + [if st.up[0].AcceptMsg? then Accept else Decline]) else s;
      st.(s := s', up := st.up[1..])
    case CancelOut =>
      st.(s := st.s.(gone := true, target := false, waiter := if st.s.target then false else st.s.waiter,
                     channel := if st.s.target && st.s.waiter then st.s.channel + [Decline] else st.s.channel),
          h := st.h.(lost := true))
    case HearDown(ok) =>
      st.(r := Hear(c, st.r, st.down[0], ok), down := st.down[1..], h := Note(st.h, st.r, st.down[0], ok))
    case Cut(k, m) => st.(down := st.down[..k], up := st.up[..m], dead := true, h := st.h.(lost := true))
  }

  predicate Enabled(st: State, a: Action) {
    if BySender(a) then SenderEnabled(st, a) else if ByReceiver(a) then ReceiverEnabled(st, a) else LinkEnabled(st, a)
  }

  function Apply(c: Config, st: State, a: Action): State
    requires Enabled(st, a)
  {
    if BySender(a) then SenderApply(st, a) else if ByReceiver(a) then ReceiverApply(st, a) else LinkApply(c, st, a)
  }

  predicate IsRun(c: Config, path: seq<State>, acts: seq<Action>) {
    && |path| == |acts| + 1 && path[0] == Init(c)
    && forall i | 0 <= i < |acts| :: Enabled(path[i], acts[i]) && path[i + 1] == Apply(c, path[i], acts[i])
  }

  // ----- what is in flight -----

  predicate Terminal(m: Down) { m.DoneMsg? || m.AbortMsg? }

  predicate TerminalIn(down: seq<Down>) { down != [] && Terminal(down[|down| - 1]) }

  predicate DoneIn(down: seq<Down>) { down != [] && down[|down| - 1].DoneMsg? }

  predicate Streamed(m: Down) { m.ChunkMsg? || m.DoneMsg? }

  function Payload(m: Down): seq<byte> { if m.ChunkMsg? then m.data else [] }

  /** The chunk data in flight. */
  function InFlight(down: seq<Down>): seq<byte> {
    if down == [] then [] else Payload(down[0]) + InFlight(down[1..])
  }

  function Chunks(down: seq<Down>): nat {
    if down == [] then 0 else (if down[0].ChunkMsg? then 1 else 0) + Chunks(down[1..])
  }

  function Offers(down: seq<Down>): nat {
    if down == [] then 0 else (if down[0].OfferMsg? then 1 else 0) + Offers(down[1..])
  }

  /** The chunks carry consecutive numbers from `taken` on, and each has 1 to CHUNK_SIZE bytes. */
  predicate Numbered(down: seq<Down>, taken: nat) {
    down == [] ||
    if down[0].ChunkMsg?
    then down[0].seqNo == taken % U32 && 1 <= |down[0].data| <= CHUNK_SIZE && Numbered(down[1..], taken + 1)
    else Numbered(down[1..], taken)
  }

  lemma {:induction false} AppendDown(down: seq<Down>, m: Down, taken: nat)
    ensures InFlight(down + [m]) == InFlight(down) + Payload(m)
    ensures Chunks(down + [m]) == Chunks(down) + if m.ChunkMsg? then 1 else 0
    ensures Offers(down + [m]) == Offers(down) + if m.OfferMsg? then 1 else 0
    ensures Numbered(down, taken) && (m.ChunkMsg? ==> m.seqNo == (taken + Chunks(down)) % U32 && 1 <= |m.data| <= CHUNK_SIZE) ==>
              Numbered(down + [m], taken)
  {
    if down == [] {
      assert ([m])[1..] == [];
    } else {
      AppendDown(down[1..], m, if down[0].ChunkMsg? then taken + 1 else taken);
      assert (down + [m])[1..] == down[1..] + [m];
    }
  }

  lemma {:induction false} CutDown(down: seq<Down>, k: nat, taken: nat)
    requires k <= |down|
    ensures InFlight(down[..k]) <= InFlight(down) && Offers(down[..k]) <= Offers(down)
    ensures Numbered(down, taken) ==> Numbered(down[..k], taken)
  {
    if k > 0 {
      CutDown(down[1..], k - 1, if down[0].ChunkMsg? then taken + 1 else taken);
      assert down[..k][1..] == down[1..][..k - 1];
    }
  }

  lemma {:induction false} NoStream(down: seq<Down>, taken: nat)
    requires forall i | 0 <= i < |down| :: !down[i].ChunkMsg?
    ensures InFlight(down) == [] && Chunks(down) == 0 && Numbered(down, taken)
  {
    if down != [] { NoStream(down[1..], taken); }
  }
}
