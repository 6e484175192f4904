/** What every reachable state of a transfer satisfies, whatever fails and whoever leaves. */
module TransferSafety {
  import opened Bytes
  import opened TransferTable
  import opened Transfer

  // ----- the sender's own bookkeeping -----

  predicate Before(pc: SendPc) { pc.Fresh? || pc.Offering? || pc.Awaiting? }

  /** Between Accept and a successful end. */
  predicate Moving(pc: SendPc) {
    pc.Opening? || pc.Streaming? || pc.Loaded? || pc.Announcing?
  }

  predicate Ending(pc: SendPc) { pc.Finishing? || pc.Reporting? || pc.Over? }

  predicate Succeeding(s: Sender) {
    (s.pc.Finishing? && s.pc.ok) || (s.pc.Reporting? && s.pc.ok) || s.reports == [true]
  }

  predicate SenderOk(c: Config, s: Sender) {
    && s.waiter == s.target
    && (if s.pc.Over? then |s.reports| <= 1 else s.reports == [])
    && (Before(s.pc) ==> s.unread == c.content && s.seqNo == 0)
    && (s.pc.Loaded? ==> 1 <= |s.pc.data| <= CHUNK_SIZE)
    && (s.pc.Announcing? ==> s.unread == [])
  }

  lemma SenderStep(c: Config, st: State, a: Action)
    requires SenderOk(c, st.s) && BySender(a) && SenderEnabled(st, a)
    ensures SenderOk(c, SenderApply(st, a).s)
  {}

  lemma SenderLink(c: Config, st: State, a: Action)
    requires SenderOk(c, st.s) && !BySender(a) && !ByReceiver(a) && LinkEnabled(st, a)
    ensures SenderOk(c, LinkApply(c, st, a).s)
  {
    hide TakeChunk;
  }

  // ----- the receiver handles one offer once -----

  predicate Ended(r: Receiver) { r.reader.Stopping? || r.reader.Telling? || r.reports != [] }

  /** How many times the transfer is represented at or ahead of the receiver. */
  function Tokens(pc: SendPc, offers: nat, r: Receiver): nat {
    (if pc.Fresh? || pc.Offering? then 1 else 0) + offers
    + (if r.offer.Some? then 1 else 0) + (if r.pc.Taken? || r.pc.Found? || r.pc.Declined? then 1 else 0)
    + (if r.active.Some? then 1 else 0) + (if r.reader.Stopping? || r.reader.Telling? then 1 else 0) + |r.reports|
  }

  predicate Single(st: State) {
    Tokens(st.s.pc, Offers(st.down), st.r) <= 1 && (st.r.reader.Rejecting? ==> st.r.active.Some?)
  }

  lemma SingleSender(st: State, a: Action)
    requires Single(st) && BySender(a) && SenderEnabled(st, a)
    ensures Single(SenderApply(st, a))
  {
    OffersSent(st, a);
    OfferedOnce(st, a);
    hide Offers, SenderApply, SenderEnabled, BySender;
  }

  lemma OfferedOnce(st: State, a: Action)
    requires BySender(a) && SenderEnabled(st, a)
    ensures var st' := SenderApply(st, a);
            && st'.r == st.r
            && (st'.s.pc.Fresh? || st'.s.pc.Offering? ==> (st.s.pc.Fresh? || st.s.pc.Offering?) && !a.SendOffer?)
            && (a.SendOffer? ==> st.s.pc.Offering?)
  {}

  lemma OffersSent(st: State, a: Action)
    requires BySender(a) && SenderEnabled(st, a)
    ensures Offers(SenderApply(st, a).down) == Offers(st.down) + if a.SendOffer? && a.ok then 1 else 0
  {
    AppendDown(st.down, OfferMsg, 0);
    if a.SendChunk? { AppendDown(st.down, ChunkMsg(st.s.seqNo, st.s.pc.data), 0); }
    AppendDown(st.down, DoneMsg, 0);
    AppendDown(st.down, AbortMsg, 0);
    hide Offers;
  }

  lemma SingleReceiver(st: State, a: Action)
    requires Single(st) && ByReceiver(a) && ReceiverEnabled(st, a)
    ensures Single(ReceiverApply(st, a))
  {
    hide Offers;
  }

  lemma SingleLink(c: Config, st: State, a: Action)
    requires Single(st) && !BySender(a) && !ByReceiver(a) && LinkEnabled(st, a)
    ensures Single(LinkApply(c, st, a))
  {
    hide TakeChunk, Complete;
    if a.Cut? { CutDown(st.down, a.k, 0); }
  }

  // ----- nothing is streamed before the receiver is ready -----

  ghost predicate Opened(st: State) {
    && ((AcceptMsg in st.up || Accept in st.s.channel || st.h.accepted) ==> st.h.inserted)
    && (st.r.pc.Inserted? || st.r.active.Some? ==> st.h.inserted)
    && (Moving(st.s.pc) || Succeeding(st.s) ==> st.h.accepted)
    && (forall i | 0 <= i < |st.down| :: Streamed(st.down[i]) ==> st.h.accepted)
    && (st.h.inserted ==> st.r.active.Some? || Ended(st.r))
  }

  lemma OpenedSender(c: Config, st: State, a: Action)
    requires Opened(st) && SenderOk(c, st.s) && BySender(a) && SenderEnabled(st, a)
    ensures Opened(SenderApply(st, a))
  {
    OpenedPosts(st, a);
    AcceptedFirst(c, st, a);
    hide SenderApply, SenderEnabled, BySender, Moving, Succeeding;
  }

  lemma OpenedPosts(st: State, a: Action)
    requires Opened(st) && BySender(a) && SenderEnabled(st, a)
    ensures var st' := SenderApply(st, a);
            && st'.r == st.r && st'.up == st.up && st'.h.inserted == st.h.inserted
            && (forall d | d in st'.s.channel :: d in st.s.channel)
            && (st'.h.accepted && !st.h.accepted ==> Accept in st.s.channel)
            && (forall i | 0 <= i < |st'.down| :: Streamed(st'.down[i]) ==> st'.h.accepted)
  {
    if a.Decide? { assert st.s.channel[0] in st.s.channel; }
  }

  lemma AcceptedFirst(c: Config, st: State, a: Action)
    requires Moving(st.s.pc) || Succeeding(st.s) ==> st.h.accepted
    requires SenderOk(c, st.s) && BySender(a) && SenderEnabled(st, a)
    ensures var st' := SenderApply(st, a); Moving(st'.s.pc) || Succeeding(st'.s) ==> st'.h.accepted
  {
    if a.ReportOut? { assert st.s.reports + [st.s.pc.ok] == [st.s.pc.ok]; }
  }

  lemma OpenedReceiver(st: State, a: Action)
    requires Opened(st) && Single(st) && ByReceiver(a) && ReceiverEnabled(st, a)
    ensures Opened(ReceiverApply(st, a))
  {
    hide Offers;
  }

  lemma OpenedLink(c: Config, st: State, a: Action)
    requires Opened(st) && !BySender(a) && !ByReceiver(a) && LinkEnabled(st, a)
    ensures Opened(LinkApply(c, st, a))
  {
    hide TakeChunk, Complete;
    var st' := LinkApply(c, st, a);
    if a.HearUp? {
      assert st.up[0] in st.up;
      assert forall m | m in st'.up :: m in st.up;
    }
    if a.Cut? { assert forall m | m in st'.up :: m in st.up; }
  }

  // ----- the last message of a transfer -----

  predicate Closed(st: State) {
    && (forall i | 0 <= i < |st.down| - 1 :: !Terminal(st.down[i]))
    && (TerminalIn(st.down) ==> Ending(st.s.pc))
  }

  lemma ClosedSender(st: State, a: Action)
    requires Closed(st) && BySender(a) && SenderEnabled(st, a)
    ensures Closed(SenderApply(st, a))
  {
    var down' := SenderApply(st, a).down;
    if |down'| == |st.down| + 1 {
      forall i | 0 <= i < |down'| - 1 ensures !Terminal(down'[i]) {
        if i == |st.down| - 1 { assert !TerminalIn(st.down); }
      }
    }
  }

  lemma ClosedLink(c: Config, st: State, a: Action)
    requires Closed(st) && !BySender(a) && !ByReceiver(a) && LinkEnabled(st, a)
    ensures Closed(LinkApply(c, st, a))
  {
    hide Hear, Note;
  }

  // ----- what was offered is what is expected -----

  predicate Matches(c: Config, r: Receiver) {
    && (r.offer.Some? ==> r.offer.value == Offer(c.peer, c.size, c.sha))
    && (r.pc.Taken? || r.pc.Found? ==> r.pc.o == Offer(c.peer, c.size, c.sha))
    && (r.active.Some? ==> r.active.value.peer == c.peer && r.active.value.size == c.size && r.active.value.sha == c.sha)
  }

  lemma MatchesReceiver(c: Config, st: State, a: Action)
    requires Matches(c, st.r) && ByReceiver(a) && ReceiverEnabled(st, a)
    ensures Matches(c, ReceiverApply(st, a).r)
  {}

  lemma MatchesLink(c: Config, st: State, a: Action)
    requires Matches(c, st.r) && !BySender(a) && !ByReceiver(a) && LinkEnabled(st, a)
    ensures Matches(c, LinkApply(c, st, a).r)
  {}

  // ----- conservation -----

  /** What the sender has still to put on the link. */
  function Pending(s: Sender): seq<byte> { if s.pc.Loaded? then s.pc.data + s.unread else s.unread }

  predicate Flowing(pc: SendPc) { Before(pc) || Moving(pc) }

  /** For an open entry: the counters are right, the chunks in flight are the next ones, and what is
      written, in flight and still to be sent makes up the file. */
  ghost predicate FlowOf(c: Config, a: Active, s: Sender, down: seq<Down>, dead: bool) {
    && Sane(a)
    && Numbered(down, a.taken)
    && a.written + InFlight(down) <= c.content
    && (DoneIn(down) ==> a.written + InFlight(down) == c.content)
    && (Flowing(s.pc) && !dead ==>
          a.written + InFlight(down) + Pending(s) == c.content && s.seqNo == (a.taken + Chunks(down)) % U32)
  }

  ghost predicate Flow(c: Config, st: State) {
    st.r.active.Some? && !st.r.reader.Rejecting? ==> FlowOf(c, st.r.active.value, st.s, st.down, st.dead)
  }

  /** A chunk goes onto the link. */
  lemma FlowSend(c: Config, a: Active, s: Sender, down: seq<Down>)
    requires FlowOf(c, a, s, down, false) && SenderOk(c, s) && s.pc.Loaded?
    ensures FlowOf(c, a, s.(pc := Streaming, seqNo := (s.seqNo + 1) % U32), down + [ChunkMsg(s.seqNo, s.pc.data)], false)
  {
    AppendDown(down, ChunkMsg(s.seqNo, s.pc.data), a.taken);
    NextSeq(a.taken + Chunks(down));
    hide InFlight, Numbered, Chunks;
    var x, d, u := a.written + InFlight(down), s.pc.data, s.unread;
    assert a.written + (InFlight(down) + d) == x + d;
    assert x + d + u == x + (d + u);
  }

  lemma FlowEnd(c: Config, a: Active, s: Sender, down: seq<Down>, dead: bool, m: Down, pc: SendPc)
    requires FlowOf(c, a, s, down, dead) && !m.ChunkMsg? && !Flowing(pc)
    requires m.DoneMsg? ==> s.pc.Announcing? && s.unread == [] && !dead
    ensures FlowOf(c, a, s.(pc := pc), down + [m], dead)
  {
    AppendDown(down, m, a.taken);
    hide InFlight, Numbered, Chunks;
    assert InFlight(down) + [] == InFlight(down);
    assert a.written + InFlight(down) + [] == a.written + InFlight(down);
  }

  /** The sender moves without touching the link. */
  lemma FlowQuiet(c: Config, a: Active, s: Sender, s': Sender, down: seq<Down>, dead: bool)
    requires FlowOf(c, a, s, down, dead)
    requires Flowing(s'.pc) ==> Flowing(s.pc) && Pending(s') == Pending(s) && s'.seqNo == s.seqNo
    ensures FlowOf(c, a, s', down, dead)
  {
    hide InFlight, Numbered, Chunks;
  }

  predicate Speaks(a: Action) { (a.SendOffer? || a.SendChunk? || a.SendDone? || a.SendAbort?) && a.ok }

  lemma SenderQuiet(st: State, a: Action)
    requires BySender(a) && SenderEnabled(st, a) && !Speaks(a)
    ensures var st' := SenderApply(st, a);
            && st'.down == st.down && st'.dead == st.dead && st'.r == st.r
            && (Flowing(st'.s.pc) ==> Flowing(st.s.pc) && Pending(st'.s) == Pending(st.s) && st'.s.seqNo == st.s.seqNo)
  {
    if a.ReadFile? { assert st.s.unread[..a.n] + st.s.unread[a.n..] == st.s.unread; }
  }

  lemma FlowSender(c: Config, st: State, a: Action)
    requires Flow(c, st) && SenderOk(c, st.s) && Single(st) && BySender(a) && SenderEnabled(st, a)
    ensures Flow(c, SenderApply(st, a))
  {
    if st.r.active.Some? && !st.r.reader.Rejecting? {
      var x, s := st.r.active.value, st.s;
      if !Speaks(a) {
        SenderQuiet(st, a);
        hide *;
        FlowQuietState(c, st, SenderApply(st, a));
      } else {
        hide FlowOf, Offers;
        match a
        case SendChunk(_) => FlowSend(c, x, s, st.down);
        case SendDone(_) => FlowEnd(c, x, s, st.down, st.dead, DoneMsg, Finishing(true));
        case SendAbort(_) => FlowEnd(c, x, s, st.down, st.dead, AbortMsg, Finishing(false));
        case _ =>
      }
    } else {
      SenderQuietReceiver(st, a);
    }
  }

  lemma SenderQuietReceiver(st: State, a: Action)
    requires BySender(a) && SenderEnabled(st, a)
    ensures SenderApply(st, a).r == st.r
  {}

  lemma FlowQuietState(c: Config, st: State, st': State)
    requires Flow(c, st) && st'.down == st.down && st'.dead == st.dead && st'.r == st.r
    requires Flowing(st'.s.pc) ==> Flowing(st.s.pc) && Pending(st'.s) == Pending(st.s) && st'.s.seqNo == st.s.seqNo
    ensures Flow(c, st')
  {
    hide FlowOf, Pending;
    if st.r.active.Some? && !st.r.reader.Rejecting? {
      FlowQuiet(c, st.r.active.value, st.s, st'.s, st.down, st.dead);
    }
  }

  /** The entry is made: nothing is written, in flight or read yet. */
  lemma FlowInsert(c: Config, st: State)
    requires Opened(st) && Closed(st) && SenderOk(c, st.s) && Matches(c, st.r) && Single(st) && Roomy(c)
    requires ReceiverEnabled(st, Insert)
    ensures Flow(c, ReceiverApply(st, Insert))
  {
    assert !st.h.inserted;
    assert forall i | 0 <= i < |st.down| :: !Streamed(st.down[i]);
    FlowBegins(c, st.r.pc.o, st.s, st.down, st.dead);
  }

  lemma FlowBegins(c: Config, o: Offer, s: Sender, down: seq<Down>, dead: bool)
    requires o.size < U64 && SenderOk(c, s) && !Moving(s.pc)
    requires forall i | 0 <= i < |down| :: !Streamed(down[i])
    ensures FlowOf(c, Begin(o), s, down, dead)
  {
    NoStream(down, 0);
    assert Begin(o).written + InFlight(down) == [];
    assert [] + [] + Pending(s) == Pending(s);
  }

  lemma FlowReceiver(c: Config, st: State, a: Action)
    requires Flow(c, st) && Opened(st) && Closed(st) && SenderOk(c, st.s) && Matches(c, st.r) && Single(st) && Roomy(c)
    requires ByReceiver(a) && ReceiverEnabled(st, a)
    ensures Flow(c, ReceiverApply(st, a))
  {
    if a.Insert? {
      FlowInsert(c, st);
    } else {
      hide FlowOf, Opened, Closed, Offers, SenderOk, Matches;
    }
  }

  /** The next chunk is taken, unless the disk fails or the file has grown beyond the offer. */
  lemma FlowChunk(c: Config, a: Active, s: Sender, down: seq<Down>, dead: bool, ok: bool)
    requires FlowOf(c, a, s, down, dead) && a.size == c.size && Roomy(c) && down != [] && down[0].ChunkMsg?
    ensures var m := down[0];
            && down[0].seqNo == a.nextSeq && (a.got + |m.data|) % U64 == a.got + |m.data| == |a.written + m.data|
            && match TakeChunk(a, m.seqNo, m.data, ok)
               case Stored(a') => FlowOf(c, a', s, down[1..], dead)
               case Problem => !ok || |a.written + m.data| > c.size
  {
    var m, rest := down[0], down[1..];
    NextFits(c, a, s, down, dead);
    TakeNext(a, m.data, ok);
    assert m.seqNo == a.nextSeq && Numbered(rest, a.taken + 1);
    assert InFlight(down) == m.data + InFlight(rest) && Chunks(down) == 1 + Chunks(rest);
    hide InFlight, Numbered, Chunks, TakeChunk, Sane;
    assert (a.written + m.data) + InFlight(rest) == a.written + (m.data + InFlight(rest));
    assert DoneIn(rest) ==> DoneIn(down);
  }

  /** The byte count does not wrap: the chunk is part of the file. */
  lemma NextFits(c: Config, a: Active, s: Sender, down: seq<Down>, dead: bool)
    requires FlowOf(c, a, s, down, dead) && a.size == c.size && Roomy(c) && down != [] && down[0].ChunkMsg?
    ensures a.got + |down[0].data| < U64
  {
    assert InFlight(down) == down[0].data + InFlight(down[1..]);
    assert |a.written + InFlight(down)| <= |c.content|;
  }

  /** The next chunk, with room below 2^64. */
  lemma TakeNext(a: Active, data: seq<byte>, ok: bool)
    requires Sane(a) && a.got + |data| < U64
    ensures (a.got + |data|) % U64 == a.got + |data| == |a.written + data|
    ensures match TakeChunk(a, a.nextSeq, data, ok)
            case Stored(a') =>
              && Sane(a') && a'.taken == a.taken + 1 && a'.written == a.written + data
              && a'.peer == a.peer && a'.size == a.size && a'.sha == a.sha
            case Problem => !ok || |a.written + data| > a.size
  {
    NoWrap(a.got + |data|);
    NextSeq(a.taken);
  }

  lemma NoWrap(n: nat)
    requires n < U64
    ensures n % U64 == n
  {}

  /** Anything else at the head carries no data. */
  lemma FlowOther(c: Config, a: Active, s: Sender, down: seq<Down>, dead: bool)
    requires FlowOf(c, a, s, down, dead) && down != [] && !down[0].ChunkMsg?
    ensures FlowOf(c, a, s, down[1..], dead)
  {
    var rest := down[1..];
    assert InFlight(down) == [] + InFlight(rest) == InFlight(rest);
    assert DoneIn(rest) ==> DoneIn(down);
  }

  lemma FlowCut(c: Config, a: Active, s: Sender, down: seq<Down>, dead: bool, k: nat)
    requires FlowOf(c, a, s, down, dead) && k <= |down|
    requires forall i | 0 <= i < |down| - 1 :: !Terminal(down[i])
    ensures FlowOf(c, a, s, down[..k], true)
  {
    CutDown(down, k, a.taken);
    assert a.written + InFlight(down[..k]) <= a.written + InFlight(down);
    if k == |down| { assert down[..k] == down; }
  }

  lemma FlowLink(c: Config, st: State, a: Action)
    requires Flow(c, st) && Closed(st) && Matches(c, st.r) && Roomy(c) && !BySender(a) && !ByReceiver(a) && LinkEnabled(st, a)
    ensures Flow(c, LinkApply(c, st, a))
  {
    if st.r.active.Some? && !st.r.reader.Rejecting? {
      var x, s := st.r.active.value, st.s;
      hide FlowOf, TakeChunk, Complete;
      match a
      case HearUp => FlowQuiet(c, x, s, LinkApply(c, st, a).s, st.down, st.dead);
      case CancelOut => FlowQuiet(c, x, s, LinkApply(c, st, a).s, st.down, st.dead);
      case HearDown(ok) =>
        if st.down[0].ChunkMsg? { FlowChunk(c, x, s, st.down, st.dead, ok); }
        else { FlowOther(c, x, s, st.down, st.dead); }
      case Cut(k, m) => FlowCut(c, x, s, st.down, st.dead, k);
    }
  }
}
