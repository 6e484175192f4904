/** Runs in which a transfer does not end, or the two sides do not agree: the conditions in
    TransferTheorems are needed. */
module TransferExamples {
  import opened Bytes
  import opened TransferTable
  import opened Transfer
  import opened TransferTheorems

  lemma Then(c: Config, path: seq<State>, acts: seq<Action>, a: Action, st: State)
    returns (path': seq<State>, acts': seq<Action>)
    requires IsRun(c, path, acts) && Enabled(path[|acts|], a) && Apply(c, path[|acts|], a) == st
    ensures IsRun(c, path', acts') && path' == path + [st] && acts' == acts + [a]
    ensures |path'| == |acts'| + 1 && path'[|acts'|] == st
  {
    hide Enabled, Apply;
    path', acts' := path + [st], acts + [a];
  }

  function Quiet(c: Config, pc: SendPc, r: Receiver): State {
    State(Sender(pc, c.content, 0, true, true, [], [], false), r, [], [], false,
          History(false, false, false, false, false, None))
  }

  /** The file is offered, the recipient says yes, and the sender is still connected. */
  lemma Offered(c: Config) returns (path: seq<State>, acts: seq<Action>)
    ensures var o := Offer(c.peer, c.size, c.sha);
            IsRun(c, path, acts) && |path| == |acts| + 1 &&
            path[|acts|] == Quiet(c, Awaiting, Receiver(None, Found(true, o), None, Ready, [], Linked))
  {
    hide IsRun;
    var o := Offer(c.peer, c.size, c.sha);
    var r := Receiver(None, Idle, None, Ready, [], Linked);
    path, acts := [Init(c)], [];
    assert IsRun(c, path, acts) by { EmptyRun(c); }
    path, acts := Then(c, path, acts, Register, Quiet(c, Offering, r));
    path, acts := Then(c, path, acts, SendOffer(true), Quiet(c, Awaiting, r).(down := [OfferMsg]));
    path, acts := Then(c, path, acts, HearDown(true), Quiet(c, Awaiting, r.(offer := Some(o))));
    path, acts := Then(c, path, acts, Respond(true), Quiet(c, Awaiting, r.(pc := Taken(true, o))));
    path, acts := Then(c, path, acts, LookUp, Quiet(c, Awaiting, r.(pc := Found(true, o))));
  }

  lemma EmptyRun(c: Config)
    ensures IsRun(c, [Init(c)], [])
  {}

  /** The sender gives up just as the offer is being accepted. In the last state the receiver waits for
      a sender that is over, and only a departure ends it. */
  lemma AbortInTheGap(c: Config) returns (path: seq<State>, acts: seq<Action>)
    ensures IsRun(c, path, acts) && |path| == |acts| + 1
    ensures var st := path[|acts|];
            && Settled(st) && st.h.inserted && st.r.active.Some? && !st.h.lost
            && forall a :: Enabled(st, a) ==> a.PartIn? || a.LeaveIn? || a.CancelOut? || a.Cut?
  {
    hide IsRun, Enabled, Apply;
    path, acts := GaveUp(c);
    path, acts := SenderEnds(c, path, acts);
    path, acts := EntryMade(c, path, acts, true);
    var st := path[|acts|];
    AcceptUnheard(c, st);
    path, acts := Then(c, path, acts, HearUp, st.(up := []));
    OnlyDeparture(st.(up := []));
  }

  /** The sender has timed out, and its abort has arrived while the offer is being accepted. */
  lemma GaveUp(c: Config) returns (path: seq<State>, acts: seq<Action>)
    ensures IsRun(c, path, acts) && |path| == |acts| + 1
    ensures var r := Receiver(None, Found(true, Offer(c.peer, c.size, c.sha)), None, Ready, [], Linked);
            path[|acts|] == Quiet(c, Finishing(false), r).(h := History(false, false, true, false, false, None))
  {
    hide IsRun;
    path, acts := Offered(c);
    var st := path[|acts|];
    path, acts := Then(c, path, acts, Timeout, st.(s := st.s.(pc := Aborting)));
    path, acts := Then(c, path, acts, SendAbort(true), st.(s := st.s.(pc := Finishing(false)), down := [AbortMsg]));
    path, acts := Then(c, path, acts, HearDown(true),
                       st.(s := st.s.(pc := Finishing(false)), h := st.h.(missed := true)));
  }

  lemma AcceptUnheard(c: Config, st: State)
    requires st.up == [AcceptMsg] && !st.s.waiter
    ensures Enabled(st, HearUp) && Apply(c, st, HearUp) == st.(up := [])
  {}

  lemma OnlyDeparture(st: State)
    requires st.s.pc.Over? && st.down == [] && st.up == []
    requires st.r.offer.None? && st.r.pc.Idle? && st.r.reader.Ready? && st.r.bond.Linked?
    ensures forall a :: Enabled(st, a) ==> a.PartIn? || a.LeaveIn? || a.CancelOut? || a.Cut?
  {}

  /** The sender departs just as the offer is being accepted: the cancellation finds nothing, the entry
      is made after it, and nothing that can still happen ends it. */
  lemma DepartureInTheGap(c: Config) returns (path: seq<State>, acts: seq<Action>)
    ensures IsRun(c, path, acts) && |path| == |acts| + 1
    ensures var st := path[|acts|];
            && Settled(st) && st.h.inserted && st.r.active.Some? && st.r.bond.Parted? && st.r.reports == []
            && forall a :: Enabled(st, a) ==> a.Cut?
  {
    hide IsRun;
    path, acts := Offered(c);
    var st := path[|acts|];
    path, acts := Then(c, path, acts, PartIn, st.(r := st.r.(bond := Parting), h := st.h.(lost := true)));
    path, acts := Then(c, path, acts, CancelIn,
                       st.(r := st.r.(bond := Parted), h := st.h.(lost := true, missed := true)));
    path, acts := SenderCancels(c, path, acts);
    path, acts := EntryMade(c, path, acts, false);
  }

  /** The receiver leaves the room while the transfer is open: `leave` drains the peers itself, so no
      reader cancels, and the entry and its file stay. */
  lemma LeaveWhileOpen(c: Config) returns (path: seq<State>, acts: seq<Action>)
    ensures IsRun(c, path, acts) && |path| == |acts| + 1
    ensures var st := path[|acts|];
            && Settled(st) && st.h.inserted && st.r.active.Some? && st.r.bond.Left? && st.r.reports == []
            && forall a :: Enabled(st, a) ==> a.Cut?
  {
    hide IsRun;
    path, acts := Offered(c);
    path, acts := EntryMade(c, path, acts, false);
    var st := path[|acts|];
    path, acts := Then(c, path, acts, LeaveIn, st.(r := st.r.(bond := Left), h := st.h.(missed := true)));
    path, acts := SenderCancels(c, path, acts);
  }

  /** The entry is made and the Accept sent, or lost. */
  lemma EntryMade(c: Config, path: seq<State>, acts: seq<Action>, ok: bool)
    returns (path': seq<State>, acts': seq<Action>)
    requires IsRun(c, path, acts) && |path| == |acts| + 1
    requires var st := path[|acts|]; st.r.pc.Found? && st.r.pc.accept && !st.dead && st.up == []
    ensures IsRun(c, path', acts') && |path'| == |acts'| + 1
    ensures var st := path[|acts|];
            path'[|acts'|] == st.(r := st.r.(active := Some(Begin(st.r.pc.o)), pc := Idle), up := if ok then [AcceptMsg] else [],
                                  h := st.h.(inserted := true, lost := st.h.lost || !ok))
  {
    hide IsRun, SenderApply, SenderEnabled, LinkApply, LinkEnabled;
    var st := path[|acts|];
    var made := st.(r := st.r.(active := Some(Begin(st.r.pc.o)), pc := Inserted), h := st.h.(inserted := true));
    path', acts' := Then(c, path, acts, Insert, made);
    path', acts' := Then(c, path', acts', SendAccept(ok),
                         made.(r := made.r.(pc := Idle), up := if ok then [AcceptMsg] else [],
                               h := made.h.(lost := made.h.lost || !ok)));
  }

  lemma SenderEnds(c: Config, path: seq<State>, acts: seq<Action>) returns (path': seq<State>, acts': seq<Action>)
    requires IsRun(c, path, acts) && |path| == |acts| + 1 && path[|acts|].s.pc.Finishing? && path[|acts|].s.reports == []
    ensures IsRun(c, path', acts') && |path'| == |acts'| + 1
    ensures var st := path[|acts|];
            path'[|acts'|] == st.(s := st.s.(pc := Over, waiter := false, target := false, reports := [st.s.pc.ok]))
  {
    hide IsRun, ReceiverApply, ReceiverEnabled, LinkApply, LinkEnabled;
    var st := path[|acts|];
    var told := st.(s := st.s.(pc := Reporting(st.s.pc.ok), waiter := false, target := false));
    path', acts' := Then(c, path, acts, FinishOut, told);
    path', acts' := Then(c, path', acts', ReportOut, told.(s := told.s.(pc := Over, reports := [st.s.pc.ok])));
  }

  /** The waiting sender learns that the receiver is gone. */
  lemma SenderCancels(c: Config, path: seq<State>, acts: seq<Action>) returns (path': seq<State>, acts': seq<Action>)
    requires IsRun(c, path, acts) && |path| == |acts| + 1
    requires var st := path[|acts|]; st.h.lost && st.s == Sender(Awaiting, c.content, 0, true, true, [], [], false)
    ensures IsRun(c, path', acts') && |path'| == |acts'| + 1
    ensures path'[|acts'|] == path[|acts|].(s := Sender(Over, c.content, 0, false, false, [], [false], true))
  {
    hide IsRun, Enabled, Apply;
    var st := path[|acts|];
    DeclinedSteps(c, st);
    path', acts' := Then(c, path, acts, CancelOut,
                         st.(s := Sender(Awaiting, c.content, 0, false, false, [Decline], [], true)));
    path', acts' := Then(c, path', acts', Decide,
                         st.(s := Sender(Finishing(false), c.content, 0, false, false, [], [], true)));
    path', acts' := SenderEnds(c, path', acts');
  }

  lemma DeclinedSteps(c: Config, st: State)
    requires st.h.lost && st.s == Sender(Awaiting, c.content, 0, true, true, [], [], false)
    ensures Enabled(st, CancelOut)
    ensures var told := st.(s := Sender(Awaiting, c.content, 0, false, false, [Decline], [], true));
            Apply(c, st, CancelOut) == told && Enabled(told, Decide) &&
            Apply(c, told, Decide) == st.(s := Sender(Finishing(false), c.content, 0, false, false, [], [], true))
  {
    hide ReceiverApply, ReceiverEnabled, Hear, Note;
  }

  /** `k` bytes of the file, in `m` chunks, are sent, received and on disk. */
  function Underway(c: Config, k: nat, m: nat): State
    requires k <= |c.content|
  {
    var done := c.content[..k];
    State(Sender(Streaming, c.content[k..], m % U32, true, true, [], [], false),
          Receiver(None, Idle, Some(Active(c.peer, c.size, c.sha, k, m % U32, done, done, m)), Ready, [], Linked),
          [], [], false, History(true, true, false, false, false, None))
  }

  /** The file is offered to a recipient who says yes, and opened. */
  lemma Opened(c: Config) returns (path: seq<State>, acts: seq<Action>)
    ensures IsRun(c, path, acts) && |path| == |acts| + 1 && path[|acts|] == Underway(c, 0, 0)
  {
    hide IsRun, ReceiverApply, ReceiverEnabled, Hear, Note;
    path, acts := Offered(c);
    path, acts := EntryMade(c, path, acts, true);
    var st := path[|acts|];
    var s := st.s;
    st := st.(up := [], s := s.(channel := [Accept]));
    path, acts := Then(c, path, acts, HearUp, st);
    st := st.(s := s.(pc := Opening), h := st.h.(accepted := true));
    path, acts := Then(c, path, acts, Decide, st);
    hide LinkApply, LinkEnabled;
    path, acts := Then(c, path, acts, OpenFile(true), st.(s := s.(pc := Streaming)));
    assert c.content[0..] == c.content && c.content[..0] == [];
  }

  /** An empty file is sent. */
  lemma SentEmpty(c: Config) returns (path: seq<State>, acts: seq<Action>)
    requires c.content == []
    ensures IsRun(c, path, acts) && |path| == |acts| + 1
    ensures path[|acts|] == Underway(c, 0, 0).(s := Underway(c, 0, 0).s.(pc := Finishing(true)), down := [DoneMsg])
  {
    path, acts := Opened(c);
    path, acts := Announced(c, path, acts, 0);
  }

  /** All of the file has been read, and the end of it is announced. */
  lemma Announced(c: Config, path: seq<State>, acts: seq<Action>, m: nat) returns (path': seq<State>, acts': seq<Action>)
    requires IsRun(c, path, acts) && |path| == |acts| + 1 && path[|acts|] == Underway(c, |c.content|, m)
    ensures IsRun(c, path', acts') && |path'| == |acts'| + 1
    ensures var st := Underway(c, |c.content|, m); path'[|acts'|] == st.(s := st.s.(pc := Finishing(true)), down := [DoneMsg])
  {
    hide IsRun, ReceiverApply, ReceiverEnabled, LinkApply, LinkEnabled;
    var st := path[|acts|];
    path', acts' := Then(c, path, acts, ReadEnd, st.(s := st.s.(pc := Announcing)));
    path', acts' := Then(c, path', acts', SendDone(true), st.(s := st.s.(pc := Finishing(true)), down := [DoneMsg]));
  }

  /** One more chunk is read, sent and received. */
  lemma ChunkSent(c: Config, path: seq<State>, acts: seq<Action>, k: nat, m: nat, n: nat)
    returns (path': seq<State>, acts': seq<Action>)
    requires c.size == |c.content| < U64 && k + n <= |c.content| && 1 <= n <= 32768
    requires IsRun(c, path, acts) && |path| == |acts| + 1 && path[|acts|] == Underway(c, k, m)
    ensures IsRun(c, path', acts') && |path'| == |acts'| + 1 && path'[|acts'|] == Underway(c, k + n, m + 1)
  {
    hide IsRun, Enabled, Apply;
    var st, data := path[|acts|], c.content[k..][..n];
    var loaded := st.(s := st.s.(pc := Loaded(data), unread := c.content[k..][n..]));
    var sent := loaded.(s := loaded.s.(pc := Streaming, seqNo := (m % U32 + 1) % U32), down := [ChunkMsg(m % U32, data)]);
    ReadStep(c, k, m, n);
    path', acts' := Then(c, path, acts, ReadFile(n), loaded);
    path', acts' := Then(c, path', acts', SendChunk(true), sent);
    path', acts' := Then(c, path', acts', HearDown(true), Underway(c, k + n, m + 1));
  }

  lemma ReadStep(c: Config, k: nat, m: nat, n: nat)
    requires c.size == |c.content| < U64 && k + n <= |c.content| && 1 <= n <= 32768
    ensures var st, data := Underway(c, k, m), c.content[k..][..n];
            var loaded := st.(s := st.s.(pc := Loaded(data), unread := c.content[k..][n..]));
            var sent := loaded.(s := loaded.s.(pc := Streaming, seqNo := (m % U32 + 1) % U32), down := [ChunkMsg(m % U32, data)]);
            && Enabled(st, ReadFile(n)) && Apply(c, st, ReadFile(n)) == loaded
            && Enabled(loaded, SendChunk(true)) && Apply(c, loaded, SendChunk(true)) == sent
            && Enabled(sent, HearDown(true)) && Apply(c, sent, HearDown(true)) == Underway(c, k + n, m + 1)
  {
    hide ReceiverApply, ReceiverEnabled;
    NextSeq(m);
    assert c.content[..k] + c.content[k..][..n] == c.content[..k + n];
    assert c.content[k..][n..] == c.content[k + n..];
    assert (k + n) % U64 == k + n;
  }

  function Sum(pieces: seq<nat>): nat { if pieces == [] then 0 else Sum(pieces[..|pieces| - 1]) + pieces[|pieces| - 1] }

  lemma {:induction false} ChunksSent(c: Config, pieces: seq<nat>) returns (path: seq<State>, acts: seq<Action>)
    requires c.size == |c.content| < U64 && Sum(pieces) <= |c.content| && forall i | 0 <= i < |pieces| :: 1 <= pieces[i] <= 32768
    ensures IsRun(c, path, acts) && |path| == |acts| + 1 && path[|acts|] == Underway(c, Sum(pieces), |pieces|)
  {
    if pieces == [] {
      path, acts := Opened(c);
    } else {
      var front, n := pieces[..|pieces| - 1], pieces[|pieces| - 1];
      path, acts := ChunksSent(c, front);
      path, acts := ChunkSent(c, path, acts, Sum(front), |front|, n);
      hide *;
    }
  }

  /** Any unchanged file whose size is a 64-bit number can be sent, however it is read in pieces of 1 to
      32768 bytes: in the last state of some run both sides have reported success and the file on disk is
      the one that was sent. */
  lemma SentWhole(c: Config, pieces: seq<nat>) returns (path: seq<State>, acts: seq<Action>)
    requires c.size == |c.content| < 0x1_0000_0000_0000_0000 && c.sha == c.hash(c.content)
    requires Sum(pieces) == |c.content| && forall i | 0 <= i < |pieces| :: 1 <= pieces[i] <= 32768
    ensures IsRun(c, path, acts) && |path| == |acts| + 1
    ensures var st := path[|acts|];
            && st.s.pc.Over? && st.s.reports == [true] && st.r.reports == [true] && st.h.saved == Some(c.content)
            && st.down == [] && st.up == [] && st.r.active.None?
  {
    path, acts := ChunksSent(c, pieces);
    hide Sum;
    path, acts := Announced(c, path, acts, |pieces|);
    var st := path[|acts|];
    WholeDone(c, st, |pieces|);
    hide IsRun, Enabled, Apply, Underway;
    st := st.(r := st.r.(active := None, reader := Telling(true)), down := [], h := st.h.(missed := false, saved := Some(c.content)));
    path, acts := Then(c, path, acts, HearDown(true), st);
    Reported(c, st);
    path, acts := Then(c, path, acts, ReportIn, st.(r := st.r.(reader := Ready, reports := [true])));
    path, acts := SenderEnds(c, path, acts);
  }

  lemma WholeDone(c: Config, st: State, m: nat)
    requires c.size == |c.content| && c.sha == c.hash(c.content)
    requires st == Underway(c, |c.content|, m).(s := Underway(c, |c.content|, m).s.(pc := Finishing(true)), down := [DoneMsg])
    ensures Enabled(st, HearDown(true))
    ensures Apply(c, st, HearDown(true)) ==
            st.(r := st.r.(active := None, reader := Telling(true)), down := [], h := st.h.(missed := false, saved := Some(c.content)))
  {
    hide SenderApply, SenderEnabled, ReceiverApply, ReceiverEnabled;
    assert c.content[..|c.content|] == c.content;
  }

  lemma Reported(c: Config, st: State)
    requires st.r.reader == Telling(true) && st.r.reports == []
    ensures Enabled(st, ReportIn) && Apply(c, st, ReportIn) == st.(r := st.r.(reader := Ready, reports := [true]))
  {
    hide SenderApply, SenderEnabled, LinkApply, LinkEnabled;
  }

  lemma EmptyDone(c: Config, st: State)
    requires !Unchanged(c) && c.content == [] && st.down == [DoneMsg] && st.r.reader.Ready? && st.r.bond.Linked? && st.r.pc.Idle?
    requires st.r.active == Some(Begin(Offer(c.peer, c.size, c.sha)))
    ensures Enabled(st, HearDown(true))
    ensures Apply(c, st, HearDown(true)) ==
            st.(r := st.r.(active := None, reader := Telling(false)), down := [], h := st.h.(missed := false, saved := Some([])))
  {
    hide SenderApply, SenderEnabled, ReceiverApply, ReceiverEnabled;
    assert st.down[1..] == [];
  }

  /** The file is emptied between the hashing and the sending: nothing is lost, no disk fails, the
      sender reports success and the receiver failure. */
  lemma ChangedFile(c: Config) returns (path: seq<State>, acts: seq<Action>)
    requires c.content == [] && !Unchanged(c)
    ensures IsRun(c, path, acts) && |path| == |acts| + 1
    ensures var st := path[|acts|];
            && st.s.reports == [true] && st.r.reports == [false] && !st.h.lost && !st.h.diskFailed
            && st.down == [] && st.r.reader.Ready?
  {
    path, acts := SentEmpty(c);
    var st := path[|acts|];
    EmptyDone(c, st);
    hide IsRun, LinkApply, LinkEnabled, SenderApply, SenderEnabled, Unchanged;
    st := st.(r := st.r.(active := None, reader := Telling(false)), down := [], h := st.h.(missed := false, saved := Some([])));
    path, acts := Then(c, path, acts, HearDown(true), st);
    path, acts := Then(c, path, acts, ReportIn, st.(r := st.r.(reader := Ready, reports := [false])));
    hide *;
    path, acts := SenderEnds(c, path, acts);
  }
}
