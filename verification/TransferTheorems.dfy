/** What the invariants of TransferSafety mean for every run of a transfer. */
module TransferTheorems {
  import opened Bytes
  import opened TransferTable
  import opened Transfer
  import opened TransferSafety

  /** What needs no bound on the sizes. */
  ghost predicate Shape(c: Config, st: State) {
    SenderOk(c, st.s) && Single(st) && Opened(st) && Closed(st) && Matches(c, st.r)
  }

  ghost predicate Safe(c: Config, st: State) { Shape(c, st) && Flow(c, st) }

  lemma InitSafe(c: Config)
    ensures Safe(c, Init(c))
  {}

  lemma ShapeSender(c: Config, st: State, a: Action)
    requires Shape(c, st) && BySender(a) && SenderEnabled(st, a)
    ensures Shape(c, SenderApply(st, a))
  {
    hide SenderOk, Single, Opened, Closed, Matches, SenderApply, SenderEnabled;
    SenderStep(c, st, a);
    SingleSender(st, a);
    OpenedSender(c, st, a);
    ClosedSender(st, a);
    SenderQuietReceiver(st, a);
  }

  lemma ShapeReceiver(c: Config, st: State, a: Action)
    requires Shape(c, st) && ByReceiver(a) && ReceiverEnabled(st, a)
    ensures Shape(c, ReceiverApply(st, a))
  {
    hide SenderOk, Single, Opened, Closed, Matches, ReceiverApply, ReceiverEnabled;
    ReceiverLocal(st, a);
    SingleReceiver(st, a);
    OpenedReceiver(st, a);
    ClosedSame(st, ReceiverApply(st, a));
    MatchesReceiver(c, st, a);
  }

  lemma ReceiverLocal(st: State, a: Action)
    requires ByReceiver(a) && ReceiverEnabled(st, a)
    ensures ReceiverApply(st, a).s == st.s && ReceiverApply(st, a).down == st.down
  {}

  lemma ClosedSame(st: State, st': State)
    requires Closed(st) && st'.s == st.s && st'.down == st.down
    ensures Closed(st')
  {}

  lemma ShapeLink(c: Config, st: State, a: Action)
    requires Shape(c, st) && !BySender(a) && !ByReceiver(a) && LinkEnabled(st, a)
    ensures Shape(c, LinkApply(c, st, a))
  {
    hide SenderOk, Single, Opened, Closed, Matches, LinkApply, LinkEnabled;
    SenderLink(c, st, a);
    SingleLink(c, st, a);
    OpenedLink(c, st, a);
    ClosedLink(c, st, a);
    MatchesLink(c, st, a);
  }

  lemma StepShape(c: Config, st: State, a: Action)
    requires Shape(c, st) && Enabled(st, a)
    ensures Shape(c, Apply(c, st, a))
  {
    hide Shape, SenderApply, ReceiverApply, LinkApply, SenderEnabled, ReceiverEnabled, LinkEnabled, BySender, ByReceiver;
    if BySender(a) { ShapeSender(c, st, a); } else if ByReceiver(a) { ShapeReceiver(c, st, a); } else { ShapeLink(c, st, a); }
  }

  lemma {:induction false} RunShape(c: Config, path: seq<State>, acts: seq<Action>, i: nat)
    requires IsRun(c, path, acts) && i < |path|
    ensures Shape(c, path[i])
  {
    hide Shape, Enabled, Apply, Init;
    if i == 0 { InitSafe(c); } else {
      RunShape(c, path, acts, i - 1);
      StepShape(c, path[i - 1], acts[i - 1]);
    }
  }

  lemma StepSafe(c: Config, st: State, a: Action)
    requires Roomy(c) && Safe(c, st) && Enabled(st, a)
    ensures Safe(c, Apply(c, st, a))
  {
    StepShape(c, st, a);
    hide SenderOk, Single, Opened, Closed, Matches, Flow, SenderApply, ReceiverApply, LinkApply,
      SenderEnabled, ReceiverEnabled, LinkEnabled, BySender, ByReceiver;
    if BySender(a) { FlowSender(c, st, a); } else if ByReceiver(a) { FlowReceiver(c, st, a); } else { FlowLink(c, st, a); }
  }

  lemma {:induction false} RunSafe(c: Config, path: seq<State>, acts: seq<Action>, i: nat)
    requires Roomy(c) && IsRun(c, path, acts) && i < |path|
    ensures Safe(c, path[i])
  {
    hide Safe, Enabled, Apply, Init;
    if i == 0 { InitSafe(c); } else {
      RunSafe(c, path, acts, i - 1);
      StepSafe(c, path[i - 1], acts[i - 1]);
    }
  }

  // ----- conservation -----

  /** While an accepted transfer is open: the file on disk, the chunks in flight and what the sender
      has not sent make up the file, in order; the counters say what is on disk. After a loss on the
      link what has arrived and is in flight is still a prefix of the file. */
  lemma Conservation(c: Config, path: seq<State>, acts: seq<Action>, i: nat)
    requires Roomy(c) && IsRun(c, path, acts) && i < |path|
    requires path[i].r.active.Some? && !path[i].r.reader.Rejecting?
    ensures var st := path[i];
            var a := st.r.active.value;
            && a.got == |a.written| && a.fed == a.written && a.nextSeq == a.taken % U32
            && a.written + InFlight(st.down) <= c.content
            && (Flowing(st.s.pc) && !st.dead ==>
                  && a.written + InFlight(st.down) + Pending(st.s) == c.content
                  && st.s.seqNo == (a.taken + Chunks(st.down)) % U32)
  {
    RunSafe(c, path, acts, i);
  }

  /** Taking the sender's Done with the transfer open: the whole content is on disk, and for an
      unchanged file the receiver reports success. */
  lemma DoneMeansWhole(c: Config, path: seq<State>, acts: seq<Action>, i: nat)
    requires Roomy(c) && IsRun(c, path, acts) && i < |acts|
    requires acts[i].HearDown? && path[i].down[0].DoneMsg? && path[i].r.active.Some?
    ensures path[i + 1].h.saved == Some(c.content)
    ensures path[i + 1].r.reader == Telling(c.size == |c.content| && c.hash(c.content) == c.sha)
  {
    RunSafe(c, path, acts, i);
    DoneStep(c, path[i]);
  }

  lemma DoneStep(c: Config, st: State)
    requires Closed(st) && Flow(c, st) && Matches(c, st.r)
    requires st.down != [] && st.down[0].DoneMsg? && st.r.active.Some? && st.r.reader.Ready?
    ensures var a := st.r.active.value;
            a.written == c.content && (Complete(c.hash, a) <==> c.size == |c.content| && c.hash(c.content) == c.sha)
  {
    if |st.down| > 1 { assert Terminal(st.down[0]); }
    assert |st.down| == 1 && DoneIn(st.down);
    NoStream(st.down, 0);
  }

  /** A chunk is stored unless the disk fails or it goes beyond the offered size, which no chunk of an
      unchanged file does. */
  lemma OnlyTheDiskFails(c: Config, path: seq<State>, acts: seq<Action>, i: nat)
    requires Roomy(c) && IsRun(c, path, acts) && i < |acts|
    requires acts[i].HearDown? && path[i].down[0].ChunkMsg? && path[i].r.active.Some?
    ensures var file := path[i].r.active.value.written + path[i].down[0].data;
            && (path[i + 1].r.reader.Rejecting? <==> !acts[i].ok || |file| > c.size)
            && (!path[i + 1].r.reader.Rejecting? ==> path[i + 1].r.active.Some? && path[i + 1].r.active.value.written == file)
            && file <= c.content && (Unchanged(c) ==> |file| <= c.size)
  {
    RunSafe(c, path, acts, i);
    ChunkStep(c, path[i], acts[i].ok);
  }

  lemma ChunkStep(c: Config, st: State, ok: bool)
    requires Roomy(c) && Flow(c, st) && Matches(c, st.r)
    requires st.down != [] && st.down[0].ChunkMsg? && st.r.active.Some? && st.r.reader.Ready?
    ensures var file := st.r.active.value.written + st.down[0].data;
            && (TakeChunk(st.r.active.value, st.down[0].seqNo, st.down[0].data, ok).Stored? <==> ok && |file| <= c.size)
            && file <= c.content && (Unchanged(c) ==> |file| <= c.size)
  {
    var a, m := st.r.active.value, st.down[0];
    FlowChunk(c, a, st.s, st.down, st.dead, ok);
    assert InFlight(st.down) == m.data + InFlight(st.down[1..]);
    assert a.written + InFlight(st.down) == (a.written + m.data) + InFlight(st.down[1..]);
  }

  // ----- bookkeeping -----

  /** A chunk or Done on the way means the receiver has the transfer open, or has ended it. */
  lemma NoUnawaitedChunk(c: Config, path: seq<State>, acts: seq<Action>, i: nat, k: nat)
    requires IsRun(c, path, acts) && i < |path| && k < |path[i].down|
    requires path[i].down[k].ChunkMsg? || path[i].down[k].DoneMsg?
    ensures path[i].r.active.Some? || Ended(path[i].r)
  {
    RunShape(c, path, acts, i);
    assert Streamed(path[i].down[k]);
  }

  /** The two outgoing maps agree whenever the lock is free, each side reports the end of the transfer
      at most once, and the receiver holds it in at most one place. */
  lemma Bookkeeping(c: Config, path: seq<State>, acts: seq<Action>, i: nat)
    requires IsRun(c, path, acts) && i < |path|
    ensures var st := path[i];
            && st.s.waiter == st.s.target
            && |st.s.reports| <= 1 && |st.r.reports| <= 1
            && !(st.r.offer.Some? && st.r.active.Some?)
            && (st.r.reports != [] ==> st.r.offer.None? && st.r.active.None? && st.r.reader.Ready?)
  {
    RunShape(c, path, acts, i);
  }

  // ----- whether the two sides agree -----

  ghost predicate Fate(c: Config, st: State) {
    var r := st.r;
    && (r.reader.Rejecting? || r.reader.Stopping? ==> st.h.diskFailed || !Unchanged(c))
    && (r.reader == Telling(true) || true in r.reports ==> st.h.saved == Some(c.content) && !st.h.diskFailed && Unchanged(c))
    && (st.h.diskFailed ==> r.reader.Rejecting? || r.reader.Stopping? || r.reader == Telling(false) || r.reports == [false])
    && (st.h.inserted && Flowing(st.s.pc) && !st.h.lost && !st.h.diskFailed && Unchanged(c) ==> r.active.Some?)
    && (Succeeding(st.s) && !st.h.lost && !st.h.diskFailed && Unchanged(c) ==>
          (r.active.Some? && DoneIn(st.down)) || r.reader == Telling(true) || r.reports == [true])
    && (Succeeding(st.s) && !st.h.lost && r.active.Some? && !r.reader.Rejecting? ==> DoneIn(st.down))
  }

  /** What a step of the sending thread can change. */
  lemma SenderEffects(st: State, a: Action)
    requires BySender(a) && SenderEnabled(st, a)
    ensures var st' := SenderApply(st, a);
            && st'.r == st.r && st'.up == st.up
            && st'.h.(accepted := st.h.accepted, lost := st.h.lost) == st.h && (st.h.lost ==> st'.h.lost)
            && (Flowing(st'.s.pc) ==> Flowing(st.s.pc))
  {}

  lemma SenderSucceeds(c: Config, st: State, a: Action)
    requires SenderOk(c, st.s) && BySender(a) && SenderEnabled(st, a)
    ensures var st' := SenderApply(st, a);
            (Succeeding(st'.s) && !Succeeding(st.s) ==> a.SendDone? && Flowing(st.s.pc) && (st'.h.lost || DoneIn(st'.down)))
  {
    if a.ReportOut? { assert st.s.reports + [st.s.pc.ok] == [st.s.pc.ok]; }
  }

  lemma SenderListens(st: State, a: Action)
    requires BySender(a) && SenderEnabled(st, a)
    ensures forall d | d in SenderApply(st, a).s.channel :: d in st.s.channel
  {}

  lemma FateSender(c: Config, st: State, a: Action)
    requires Safe(c, st) && Fate(c, st) && BySender(a) && SenderEnabled(st, a)
    ensures Fate(c, SenderApply(st, a))
  {
    SenderEffects(st, a);
    SenderSucceeds(c, st, a);
    DoneStays(c, st, a);
    hide Flow, Closed, Matches, SenderOk, SenderApply, SenderEnabled, BySender, Single, Flowing, Succeeding, DoneIn;
  }

  /** While the transfer is open a successful sender stays silent. */
  lemma DoneStays(c: Config, st: State, a: Action)
    requires SenderOk(c, st.s) && BySender(a) && SenderEnabled(st, a)
    ensures Succeeding(st.s) ==> SenderApply(st, a).down == st.down
    ensures a.SendDone? ==> Moving(st.s.pc)
  {}

  lemma FateReceiver(c: Config, st: State, a: Action)
    requires Safe(c, st) && Fate(c, st) && ByReceiver(a) && ReceiverEnabled(st, a)
    ensures Fate(c, ReceiverApply(st, a))
  {
    if a.ReportIn? || a.ReportDecline? {
      FateReport(c, st, a);
    } else {
      hide Flow, Offers, Closed, Matches, SenderOk, DoneIn, Succeeding, Flowing;
    }
  }

  lemma FateReport(c: Config, st: State, a: Action)
    requires Safe(c, st) && Fate(c, st) && (a.ReportIn? || a.ReportDecline?) && ReceiverEnabled(st, a)
    ensures Fate(c, ReceiverApply(st, a))
  {
    var ok := if a.ReportIn? then st.r.reader.ok else false;
    assert st.r.reports == [] && [] + [ok] == [ok];
    hide Flow, Offers, Closed, Matches, SenderOk, Opened, DoneIn, Succeeding, Flowing, Single;
  }

  lemma FateLink(c: Config, st: State, a: Action)
    requires Roomy(c) && Safe(c, st) && Fate(c, st) && !BySender(a) && !ByReceiver(a) && LinkEnabled(st, a)
    ensures Fate(c, LinkApply(c, st, a))
  {
    if a.HearDown? {
      FateHear(c, st, a.ok);
    } else {
      hide Flow, Offers, Closed, Matches, SenderOk, Opened, Hear, Note;
    }
  }

  lemma FateHear(c: Config, st: State, ok: bool)
    requires Roomy(c) && Safe(c, st) && Fate(c, st) && LinkEnabled(st, HearDown(ok))
    ensures Fate(c, LinkApply(c, st, HearDown(ok)))
  {
    var m := st.down[0];
    if Terminal(m) { FateLast(c, st, ok); } else { FateMore(c, st, ok); }
  }

  lemma FateLast(c: Config, st: State, ok: bool)
    requires Roomy(c) && Safe(c, st) && Fate(c, st) && LinkEnabled(st, HearDown(ok)) && Terminal(st.down[0])
    ensures Fate(c, LinkApply(c, st, HearDown(ok)))
  {
    if st.r.active.Some? && st.down[0].DoneMsg? { DoneStep(c, st); }
    assert |st.down| == 1 && Ending(st.s.pc);
    hide Flow, Offers, Matches, SenderOk, Complete, Closed;
  }

  lemma FateMore(c: Config, st: State, ok: bool)
    requires Roomy(c) && Safe(c, st) && Fate(c, st) && LinkEnabled(st, HearDown(ok)) && !Terminal(st.down[0])
    ensures Fate(c, LinkApply(c, st, HearDown(ok)))
  {
    var m, rest := st.down[0], st.down[1..];
    if st.r.active.Some? && m.ChunkMsg? { ChunkStep(c, st, ok); }
    assert DoneIn(rest) == DoneIn(st.down);
    hide Flow, Offers, Matches, SenderOk, TakeChunk, Closed, Succeeding, Flowing, Opened, DoneIn;
  }

  lemma StepFate(c: Config, st: State, a: Action)
    requires Roomy(c) && Safe(c, st) && Fate(c, st) && Enabled(st, a)
    ensures Fate(c, Apply(c, st, a))
  {
    hide Safe, Fate, SenderApply, ReceiverApply, LinkApply, SenderEnabled, ReceiverEnabled, LinkEnabled, BySender, ByReceiver;
    if BySender(a) { FateSender(c, st, a); } else if ByReceiver(a) { FateReceiver(c, st, a); } else { FateLink(c, st, a); }
  }

  lemma {:induction false} RunFate(c: Config, path: seq<State>, acts: seq<Action>, i: nat)
    requires Roomy(c) && IsRun(c, path, acts) && i < |path|
    ensures Fate(c, path[i])
  {
    hide Safe, Fate, Enabled, Apply, Init;
    if i == 0 { assert Fate(c, Init(c)) by { InitFate(c); } } else {
      RunFate(c, path, acts, i - 1);
      RunSafe(c, path, acts, i - 1);
      StepFate(c, path[i - 1], acts[i - 1]);
    }
  }

  lemma InitFate(c: Config)
    ensures Fate(c, Init(c))
  {}

  /** Once everything has been handled: after the sender reported success and nothing was lost, the
      receiver has reported too, success exactly when the file read for sending was the one offered
      and the disk never failed; and then it has the file. */
  lemma SuccessAgreesIff(c: Config, path: seq<State>, acts: seq<Action>, i: nat)
    requires Roomy(c) && IsRun(c, path, acts) && i < |path|
    requires var st := path[i]; st.s.reports == [true] && st.down == [] && st.r.reader.Ready? && !st.h.lost
    ensures var st := path[i];
            && st.r.reports == [Unchanged(c) && !st.h.diskFailed]
            && (st.r.reports == [true] ==> st.h.saved == Some(c.content))
  {
    RunFate(c, path, acts, i);
    RunShape(c, path, acts, i);
    hide Fate, Offers, IsRun;
    FateSettled(c, path[i]);
  }

  lemma FateSettled(c: Config, st: State)
    requires Shape(c, st) && Fate(c, st)
    requires st.s.reports == [true] && st.down == [] && st.r.reader.Ready? && !st.h.lost
    ensures st.r.reports == [Unchanged(c) && !st.h.diskFailed]
    ensures st.r.reports == [true] ==> st.h.saved == Some(c.content)
  {
    assert Succeeding(st.s) && st.h.inserted;
    assert st.r.active.None? && |st.r.reports| == 1;
    var ok := st.r.reports[0];
    assert ok in st.r.reports && st.r.reports == [ok];
    hide Succeeding, Single, Opened, SenderOk, Closed, Matches;
    if Unchanged(c) && !st.h.diskFailed { assert st.r.reports == [true]; } else { assert !ok; }
  }

  // ----- whether an accepted transfer ends -----

  /** The steps that should end the transfer at the receiver: the sender's last message, a chunk that
      is refused, the sender's departure, the receiver's own. */
  predicate ShouldEnd(st: State, a: Action) {
    a.CancelIn? || a.LeaveIn? || a.DropActive? || (a.HearDown? && st.down != [] && Terminal(st.down[0]))
  }

  /** Such a step that comes while the offer is being accepted finds nothing to end; and `leave` ends
      nothing at all. */
  predicate Overlooks(st: State, a: Action) {
    ShouldEnd(st, a) && (Answering(st.r.pc) || (a.LeaveIn? && st.r.active.Some?))
  }

  /** The last step that should have ended the transfer overlooked it. */
  ghost predicate LastOverlooked(path: seq<State>, acts: seq<Action>, i: nat)
    requires i < |path| && i <= |acts|
  {
    exists k :: 0 <= k < i && Overlooks(path[k], acts[k]) && forall j | k < j < i :: !ShouldEnd(path[j], acts[j])
  }

  lemma MissedStep(c: Config, st: State, a: Action)
    requires Enabled(st, a)
    ensures Apply(c, st, a).h.missed == if ShouldEnd(st, a) then Overlooks(st, a) else st.h.missed
  {
    hide SenderApply, SenderEnabled;
    if BySender(a) { SenderEffects(st, a); } else if ByReceiver(a) { MissedReceiver(st, a); }
  }

  lemma MissedReceiver(st: State, a: Action)
    requires ByReceiver(a) && ReceiverEnabled(st, a)
    ensures ReceiverApply(st, a).h.missed == if ShouldEnd(st, a) then Overlooks(st, a) else st.h.missed
  {}

  lemma {:induction false} MissedMeans(c: Config, path: seq<State>, acts: seq<Action>, i: nat)
    requires IsRun(c, path, acts) && i < |path|
    ensures path[i].h.missed <==> LastOverlooked(path, acts, i)
  {
    hide Enabled, Apply, ShouldEnd, Overlooks;
    if i > 0 {
      MissedMeans(c, path, acts, i - 1);
      MissedStep(c, path[i - 1], acts[i - 1]);
      OnlyShould(path[i - 1], acts[i - 1]);
      if ShouldEnd(path[i - 1], acts[i - 1]) {
        if Overlooks(path[i - 1], acts[i - 1]) { assert LastOverlooked(path, acts, i); }
      } else if LastOverlooked(path, acts, i) {
        var k :| 0 <= k < i && Overlooks(path[k], acts[k]) && forall j | k < j < i :: !ShouldEnd(path[j], acts[j]);
        assert k < i - 1;
      }
    }
  }

  lemma OnlyShould(st: State, a: Action)
    ensures Overlooks(st, a) ==> ShouldEnd(st, a)
  {}

  /** The offer is on its way, waiting, being accepted, or accepted. */
  predicate Open(st: State) {
    Offers(st.down) > 0 || st.r.offer.Some? || Answering(st.r.pc) || st.r.active.Some?
  }

  /** What an overlooked end leaves behind, whatever fails and whoever leaves. */
  ghost predicate Gap(st: State) {
    var r := st.r;
    && (st.h.missed && st.h.inserted ==> r.active.Some?)
    && ((r.bond.Parted? || r.bond.Left?) && ((r.pc.Found? && r.pc.accept) || r.active.Some?) ==> st.h.missed)
    && (!r.bond.Linked? ==> st.h.lost)
    && ((DeclineMsg in st.up || Decline in st.s.channel) && !st.h.lost ==> r.pc.Declined? || r.reports != [])
    && (!st.h.missed && !st.h.lost && Ending(st.s.pc) && Open(st) ==> TerminalIn(st.down))
  }

  lemma GapSender(c: Config, st: State, a: Action)
    requires Shape(c, st) && Gap(st) && BySender(a) && SenderEnabled(st, a)
    ensures Gap(SenderApply(st, a))
  {
    OffersSent(st, a);
    SenderEffects(st, a);
    SenderListens(st, a);
    EndsBy(st, a);
    StaysEnded(st, a);
    hide Closed, Matches, SenderOk, SenderApply, SenderEnabled, BySender, Flowing, Succeeding, DoneIn,
      TerminalIn, Ending, Opened, Offers;
  }

  /** How the sending thread comes to an end. */
  lemma EndsBy(st: State, a: Action)
    requires BySender(a) && SenderEnabled(st, a)
    ensures var st' := SenderApply(st, a);
            Ending(st'.s.pc) && !Ending(st.s.pc) && !st'.h.lost ==> TerminalIn(st'.down) || (a.Decide? && Decline in st.s.channel)
  {
    if a.Decide? { assert st.s.channel[0] in st.s.channel; }
  }

  lemma StaysEnded(st: State, a: Action)
    requires BySender(a) && SenderEnabled(st, a)
    ensures Ending(st.s.pc) ==> Ending(SenderApply(st, a).s.pc) && SenderApply(st, a).down == st.down
    ensures a.SendOffer? ==> !Ending(st.s.pc) && (SenderApply(st, a).h.lost || !Ending(SenderApply(st, a).s.pc))
  {}

  lemma GapReceiver(c: Config, st: State, a: Action)
    requires Shape(c, st) && Gap(st) && ByReceiver(a) && ReceiverEnabled(st, a)
    ensures Gap(ReceiverApply(st, a))
  {
    hide Offers, Matches, SenderOk, Closed, TerminalIn;
  }

  lemma GapLink(c: Config, st: State, a: Action)
    requires Shape(c, st) && Gap(st) && !BySender(a) && !ByReceiver(a) && LinkEnabled(st, a)
    ensures Gap(LinkApply(c, st, a))
  {
    match a
    case HearDown(ok) => GapHear(c, st, ok);
    case HearUp =>
      hide Offers, Matches, SenderOk, Closed, TerminalIn, Single, Opened;
      assert st.up[0] in st.up;
      assert forall m | m in st.up[1..] :: m in st.up;
    case CancelOut =>
      hide Offers, Matches, SenderOk, Closed, TerminalIn, Single, Opened;
    case Cut(_, _) =>
      hide Offers, Matches, SenderOk, Closed, TerminalIn, Single, Opened;
  }

  lemma GapHear(c: Config, st: State, ok: bool)
    requires Shape(c, st) && Gap(st) && LinkEnabled(st, HearDown(ok))
    ensures Gap(LinkApply(c, st, HearDown(ok)))
  {
    var m, rest := st.down[0], st.down[1..];
    assert Streamed(m) ==> st.h.accepted;
    if Terminal(m) { assert |st.down| == 1; }
    assert Offers(st.down) == (if m.OfferMsg? then 1 else 0) + Offers(rest);
    hide Matches, SenderOk, Closed, TakeChunk, Complete, Offers;
    assert |st.down| > 1 ==> TerminalIn(rest) == TerminalIn(st.down);
  }

  lemma StepGap(c: Config, st: State, a: Action)
    requires Shape(c, st) && Gap(st) && Enabled(st, a)
    ensures Gap(Apply(c, st, a))
  {
    hide Shape, Gap, SenderApply, ReceiverApply, LinkApply, SenderEnabled, ReceiverEnabled, LinkEnabled, BySender, ByReceiver;
    if BySender(a) { GapSender(c, st, a); } else if ByReceiver(a) { GapReceiver(c, st, a); } else { GapLink(c, st, a); }
  }

  lemma {:induction false} RunGap(c: Config, path: seq<State>, acts: seq<Action>, i: nat)
    requires IsRun(c, path, acts) && i < |path|
    ensures Gap(path[i])
  {
    hide Shape, Gap, Enabled, Apply, Init;
    if i == 0 { InitGap(c); } else {
      RunGap(c, path, acts, i - 1);
      RunShape(c, path, acts, i - 1);
      StepGap(c, path[i - 1], acts[i - 1]);
    }
  }

  lemma InitGap(c: Config)
    ensures Gap(Init(c))
  {}

  /** Nothing is left that will end the transfer: the receiver has cancelled or left, or nothing was
      lost, the sender is through and everything has arrived. */
  predicate Settled(st: State) {
    st.r.bond.Parted? || st.r.bond.Left? || (!st.h.lost && st.s.pc.Over? && st.down == [])
  }

  /** An accepted transfer is left open for good exactly when the last step that should have ended it
      overlooked it: an abort or a departure of the sender between the two sections of
      `respond_offer`, or the receiver's own `leave`. */
  lemma LeftOpenIff(c: Config, path: seq<State>, acts: seq<Action>, i: nat)
    requires IsRun(c, path, acts) && i < |path| && path[i].h.inserted && Settled(path[i])
    ensures path[i].r.active.Some? <==> LastOverlooked(path, acts, i)
  {
    hide Enabled, Apply, ShouldEnd, Overlooks;
    RunGap(c, path, acts, i);
    MissedMeans(c, path, acts, i);
  }
}
