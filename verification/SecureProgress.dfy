/** An encrypted link never gets stuck: what its threads have left to do is bounded, whoever runs next,
    and as long as no write fails every payload accepted for sending is delivered. */
module SecureProgress {
  import opened Bytes
  import Codec
  import opened SecureLink

  /** A step of a thread already inside `send` or `recv`. */
  predicate OwnStep(act: Act) { act.Sends? ==> !act.s.Call? }

  /** A step that is no failure: no write error, no reader giving up. */
  predicate Smooth(act: Act) { OwnStep(act) && (if act.Sends? then !act.s.WriteFails? else !act.r.HangUp?) }

  // ----- the work left -----

  function PcWork(pc: Pc): nat {
    match pc
    case Idle => 0
    case AtGate(p) => 5 * (|p| + 4 + TAG) + 4
    case AtCipher(p) => 5 * (|p| + 4 + TAG) + 3
    case Encrypting(p) => 5 * (|p| + 4 + TAG) + 2
    case Writing(frame, sent) => if sent <= |frame| then 5 * (|frame| - sent) + 1 else 0
  }

  /** Over the threads `ts`. */
  ghost function Total(ts: set<nat>, e: End): nat {
    if ts == {} then 0 else
    var t :| t in ts;
    PcWork(PcOf(e, t)) + Total(ts - {t}, e)
  }

  lemma {:induction false} TotalAt(ts: set<nat>, e: End, t: nat)
    requires t in ts
    ensures Total(ts, e) == PcWork(PcOf(e, t)) + Total(ts - {t}, e)
    decreases |ts|
  {
    var u :| u in ts && Total(ts, e) == PcWork(PcOf(e, u)) + Total(ts - {u}, e);
    if u != t {
      TotalAt(ts - {u}, e, t);
      TotalAt(ts - {t}, e, u);
      assert ts - {u} - {t} == ts - {t} - {u};
    }
  }

  lemma {:induction false} TotalSame(ts: set<nat>, e: End, e': End)
    requires forall t | t in ts :: PcOf(e', t) == PcOf(e, t)
    ensures Total(ts, e') == Total(ts, e)
    decreases |ts|
  {
    if ts != {} {
      var t :| t in ts;
      TotalAt(ts, e, t);
      TotalAt(ts, e', t);
      TotalSame(ts - {t}, e, e');
    }
  }

  function ReaderWork(r: Reader): nat {
    match r
    case Collecting(_) => 1
    case HasFrame(_) => 3
    case Opening(_) => 2
    case Refused => 0
    case HungUp => 0
  }

  ghost function SendWork(e: End): nat { Total(e.threads.Keys, e) }

  function RecvWork(e: End, far: End): int { ReaderWork(e.reader) + 4 * (|far.wire| - e.taken) }

  ghost function Work(st: State): int {
    SendWork(st.a) + SendWork(st.b) + RecvWork(st.a, st.b) + RecvWork(st.b, st.a)
  }

  /** A byte put on the wire costs its sender more than it costs the reader to take it off. */
  lemma SendWorkFalls(seal: Sealing, e: End, a: SendAct)
    requires Tagged(seal) && EndOk(seal, e) && SendEnabled(e, a) && !a.Call?
    ensures var e' := Send(seal, e, a); SendWork(e') + 4 * |e'.wire| < SendWork(e) + 4 * |e.wire|
  {
    var e', t := Send(seal, e, a), a.thread;
    assert t in e.threads && e'.threads.Keys == e.threads.Keys;
    TotalAt(e.threads.Keys, e, t);
    TotalAt(e'.threads.Keys, e', t);
    TotalSame(e.threads.Keys - {t}, e, e');
    OneFalls(seal, e, a);
  }

  lemma OneFalls(seal: Sealing, e: End, a: SendAct)
    requires Tagged(seal) && EndOk(seal, e) && SendEnabled(e, a) && !a.Call?
    ensures var e' := Send(seal, e, a); PcWork(PcOf(e', a.thread)) + 4 * |e'.wire| < PcWork(PcOf(e, a.thread)) + 4 * |e.wire|
  {
    hide Payloads, OnWire;
    assert HoldsGate(PcOf(e, a.thread)) ==> e.gate == HeldBy(a.thread);
  }

  lemma RecvWorkFalls(seal: Sealing, e: End, far: End, a: RecvAct)
    requires RecvEnabled(e, far, a)
    ensures RecvWork(Recv(seal, e, far, a), far) < RecvWork(e, far)
  {}

  /** Every step but a new call lowers the work left. */
  lemma StepWork(seal: Sealing, st: State, act: Act)
    requires Tagged(seal) && Inv(seal, st) && Enabled(st, act) && OwnStep(act)
    ensures Work(Apply(seal, st, act)) < Work(st)
  {
    hide SendWork, EndOk, Received, Send, Recv, SendEnabled, RecvEnabled, ReaderWork, Tagged;
    var near, far := Near(st, act.first), Near(st, !act.first);
    match act
    case Sends(_, s) =>
      SendWorkFalls(seal, near, s);
      SendGrows(seal, near, s);
      SendReader(seal, near, s);
    case Receives(_, r) =>
      RecvWorkFalls(seal, near, far, r);
      RecvLocal(seal, near, far, r);
      RecvKeeps(seal, near, far, r);
      RecvThreads(seal, near, far, r);
  }

  lemma SendReader(seal: Sealing, e: End, a: SendAct)
    requires SendEnabled(e, a)
    ensures Send(seal, e, a).reader == e.reader && Send(seal, e, a).taken == e.taken
  {}

  lemma RecvThreads(seal: Sealing, e: End, far: End, a: RecvAct)
    requires RecvEnabled(e, far, a)
    ensures SendWork(Recv(seal, e, far, a)) == SendWork(e)
  {
    TotalSame(e.threads.Keys, e, Recv(seal, e, far, a));
  }

  lemma WorkLeft(seal: Sealing, st: State)
    requires Inv(seal, st)
    ensures Work(st) >= 0
  {
    hide EndOk, SendWork;
  }

  /** Once nobody calls `send` any more there are at most `Work` more steps. */
  lemma {:induction false} RunsDry(seal: Sealing, path: seq<State>, acts: seq<Act>, i: nat, j: nat)
    requires Tagged(seal) && IsRun(seal, path, acts) && i <= j <= |acts|
    requires forall k | i <= k < j :: OwnStep(acts[k])
    ensures Work(path[j]) + (j - i) <= Work(path[i]) && Work(path[j]) >= 0
  {
    hide Enabled, Apply, Inv, Work, Tagged;
    RunInv(seal, path, acts, j);
    WorkLeft(seal, path[j]);
    if i < j {
      RunsDry(seal, path, acts, i, j - 1);
      RunInv(seal, path, acts, j - 1);
      StepWork(seal, path[j - 1], acts[j - 1]);
    }
  }

  // ----- somebody can always step -----

  ghost predicate Quiet(e: End, far: End) {
    && (forall t: nat :: PcOf(e, t).Idle?)
    && (e.reader.Refused? || e.reader.HungUp? || (e.reader.Collecting? && e.taken == |far.wire|))
  }

  ghost predicate AtRest(st: State) { Quiet(st.a, st.b) && Quiet(st.b, st.a) }

  /** Whoever is waiting in `send`, some thread of that end can go on. */
  lemma SenderMoves(seal: Sealing, e: End, far: End, t: nat) returns (s: Option<SendAct>)
    requires EndOk(seal, e) && !PcOf(e, t).Idle?
    ensures s.Some? ==> SendEnabled(e, s.value) && !s.value.Call? && !s.value.WriteFails?
    ensures s.None? ==> RecvEnabled(e, far, OpenFrame)
  {
    hide Payloads, OnWire;
    assert HoldsGate(PcOf(e, t)) ==> e.gate == HeldBy(t);
    if e.gate.Open? { return Some(TakeGate(t)); }
    var h := e.gate.thread;
    assert HoldsGate(PcOf(e, h));
    assert e.cipher.Sender? ==> PcOf(e, e.cipher.thread).Encrypting? && e.gate == HeldBy(e.cipher.thread);
    match PcOf(e, h)
    case Writing(frame, sent) => s := Some(if sent < |frame| then WriteSome(h, 1) else Finish(h));
    case Encrypting(_) => s := Some(Encrypt(h));
    case AtCipher(_) =>
      s := if e.cipher.Free? then Some(TakeCipher(h)) else None;
  }

  /** A reader with something to do can go on, or a sender of its end can. */
  lemma ReaderMoves(seal: Sealing, e: End, far: End) returns (act: Act)
    requires EndOk(seal, e) && Received(seal, e, far)
    requires e.reader.HasFrame? || e.reader.Opening? || (e.reader.Collecting? && e.taken < |far.wire|)
    ensures Smooth(act) && act.first
    ensures if act.Sends? then SendEnabled(e, act.s) else RecvEnabled(e, far, act.r)
  {
    hide Payloads, OnWire, Ordered;
    match e.reader
    case Collecting(_) => act := Receives(true, Pull(1));
    case Opening(_) => act := Receives(true, OpenFrame);
    case HasFrame(_) =>
      if e.cipher.Sender? {
        assert PcOf(e, e.cipher.thread).Encrypting?;
        act := Sends(true, Encrypt(e.cipher.thread));
      } else {
        act := Receives(true, LockToOpen);
      }
  }

  /** As long as anything is left to do, some thread can step without a failure. */
  lemma NeverStuck(seal: Sealing, st: State)
    requires Inv(seal, st) && !AtRest(st)
    ensures exists act :: Smooth(act) && Enabled(st, act)
  {
    hide EndOk, Received, SendEnabled, RecvEnabled, Smooth;
    var first := !Quiet(st.a, st.b);
    var e, far := Near(st, first), Near(st, !first);
    var act := EndMoves(seal, e, far);
    var act' := if act.Sends? then Sends(first, act.s) else Receives(first, act.r);
    SameSmooth(act, act');
    assert Enabled(st, act');
  }

  lemma SameSmooth(act: Act, act': Act)
    requires Smooth(act) && (if act.Sends? then act'.Sends? && act'.s == act.s else act'.Receives? && act'.r == act.r)
    ensures Smooth(act')
  {}

  lemma EndMoves(seal: Sealing, e: End, far: End) returns (act: Act)
    requires EndOk(seal, e) && Received(seal, e, far) && !Quiet(e, far)
    ensures Smooth(act) && act.first
    ensures if act.Sends? then SendEnabled(e, act.s) else RecvEnabled(e, far, act.r)
  {
    hide EndOk, OnWire;
    if t: nat :| !PcOf(e, t).Idle? {
      var s := SenderMoves(seal, e, far, t);
      act := if s.Some? then Sends(true, s.value) else Receives(true, OpenFrame);
    } else {
      act := ReaderMoves(seal, e, far);
    }
  }

  // ----- what the threads have still to send -----

  function Load(pc: Pc): multiset<seq<byte>> {
    if pc.AtGate? || pc.AtCipher? || pc.Encrypting? then multiset{pc.payload} else multiset{}
  }

  ghost function Loads(ts: set<nat>, e: End): multiset<seq<byte>> {
    if ts == {} then multiset{} else
    var t :| t in ts;
    Load(PcOf(e, t)) + Loads(ts - {t}, e)
  }

  lemma {:induction false} LoadsAt(ts: set<nat>, e: End, t: nat)
    requires t in ts
    ensures Loads(ts, e) == Load(PcOf(e, t)) + Loads(ts - {t}, e)
    decreases |ts|
  {
    var u :| u in ts && Loads(ts, e) == Load(PcOf(e, u)) + Loads(ts - {u}, e);
    if u != t {
      LoadsAt(ts - {u}, e, t);
      LoadsAt(ts - {t}, e, u);
      assert ts - {u} - {t} == ts - {t} - {u};
    }
  }

  lemma {:induction false} LoadsSame(ts: set<nat>, e: End, e': End)
    requires forall t | t in ts :: PcOf(e', t) == PcOf(e, t)
    ensures Loads(ts, e') == Loads(ts, e)
    decreases |ts|
  {
    if ts != {} {
      var t :| t in ts;
      LoadsAt(ts, e, t);
      LoadsAt(ts, e', t);
      LoadsSame(ts - {t}, e, e');
    }
  }

  /** The payloads handed to `send` and not encrypted yet. */
  ghost function Waiting(e: End): multiset<seq<byte>> { Loads(e.threads.Keys, e) }

  /** With what is waiting there are fewer than 2^64 messages in all. */
  ghost predicate Lasts(e: End) { |e.log| + |Waiting(e)| <= 0xFFFF_FFFF_FFFF_FFFF }

  /** What steps without failures keep: nothing encrypted is taken back, and while the counter lasts
      nothing waiting is lost. */
  ghost predicate Onward(e: End, e': End) {
    && e.log <= e'.log && e'.tear == e.tear && (e'.reader.HungUp? ==> e.reader.HungUp?)
    && (Lasts(e) ==> Lasts(e') && multiset(e'.log) + Waiting(e') == multiset(e.log) + Waiting(e))
  }

  ghost predicate Passed(e: End, e': End, t: nat) {
    var x, y := Load(PcOf(e, t)), Load(PcOf(e', t));
    && e.log <= e'.log && e'.tear == e.tear && e'.reader == e.reader
    && (|e.log| < 0xFFFF_FFFF_FFFF_FFFF || x == multiset{} ==>
          multiset(e'.log) + y == multiset(e.log) + x && |e'.log| + |y| == |e.log| + |x|)
  }

  /** The thread's own payload: waiting before, waiting or encrypted after. */
  lemma EncryptPasses(seal: Sealing, e: End, t: nat)
    requires SendEnabled(e, Encrypt(t)) && e.sendCount == |e.log|
    ensures Passed(e, Send(seal, e, Encrypt(t)), t) || |e.log| >= 0xFFFF_FFFF_FFFF_FFFF
    ensures Send(seal, e, Encrypt(t)).tear == e.tear && Send(seal, e, Encrypt(t)).reader == e.reader
    ensures e.log <= Send(seal, e, Encrypt(t)).log && Load(PcOf(e, t)) != multiset{}
  {
    var p, e' := PcOf(e, t).payload, Send(seal, e, Encrypt(t));
    if |e.log| < 0xFFFF_FFFF_FFFF_FFFF {
      assert e'.log == e.log + [p] && Load(PcOf(e', t)) == multiset{} && Load(PcOf(e, t)) == multiset{p};
      assert multiset(e.log + [p]) == multiset(e.log) + multiset{p};
    }
  }

  lemma OtherPasses(seal: Sealing, e: End, a: SendAct)
    requires SendEnabled(e, a) && !a.Call? && !a.Encrypt? && !a.WriteFails?
    ensures Load(PcOf(Send(seal, e, a), a.thread)) == Load(PcOf(e, a.thread))
    ensures var e' := Send(seal, e, a); e'.log == e.log && e'.tear == e.tear && e'.reader == e.reader
  {}

  lemma SendOnward(seal: Sealing, e: End, a: SendAct)
    requires SendEnabled(e, a) && !a.Call? && !a.WriteFails? && e.sendCount == |e.log|
    ensures Onward(e, Send(seal, e, a))
  {
    hide Send, SendEnabled, Load, Loads, Waiting;
    var e', t := Send(seal, e, a), a.thread;
    var x, y, rest := Load(PcOf(e, t)), Load(PcOf(e', t)), Loads(e.threads.Keys - {t}, e);
    SplitWaiting(seal, e, a);
    if a.Encrypt? { EncryptPasses(seal, e, t); } else { OtherPasses(seal, e, a); }
    if Lasts(e) {
      Weight(x, rest);
      MoveLoad(multiset(e.log), multiset(e'.log), x, y, rest, |e.log|, |e'.log|);
    }
  }

  lemma SplitWaiting(seal: Sealing, e: End, a: SendAct)
    requires SendEnabled(e, a) && !a.Call?
    ensures var t, e' := a.thread, Send(seal, e, a);
            && Waiting(e) == Load(PcOf(e, t)) + Loads(e.threads.Keys - {t}, e)
            && Waiting(e') == Load(PcOf(e', t)) + Loads(e.threads.Keys - {t}, e)
  {
    var e', t := Send(seal, e, a), a.thread;
    assert t in e.threads && e'.threads.Keys == e.threads.Keys;
    LoadsAt(e.threads.Keys, e, t);
    LoadsAt(e'.threads.Keys, e', t);
    LoadsSame(e.threads.Keys - {t}, e, e');
  }

  lemma Weight(x: multiset<seq<byte>>, rest: multiset<seq<byte>>)
    ensures |x + rest| == |x| + |rest| && (x != multiset{} ==> |x| > 0)
  {}

  lemma MoveLoad(m: multiset<seq<byte>>, m': multiset<seq<byte>>, x: multiset<seq<byte>>, y: multiset<seq<byte>>,
                 rest: multiset<seq<byte>>, count: nat, count': nat)
    requires m' + y == m + x && count' + |y| == count + |x|
    ensures m' + (y + rest) == m + (x + rest) && count' + |y + rest| == count + |x + rest|
  {
    assert m' + (y + rest) == (m' + y) + rest == (m + x) + rest;
  }

  lemma RecvOnward(seal: Sealing, e: End, far: End, a: RecvAct)
    requires RecvEnabled(e, far, a) && !a.HangUp?
    ensures Onward(e, Recv(seal, e, far, a))
  {
    LoadsSame(e.threads.Keys, e, Recv(seal, e, far, a));
  }

  ghost predicate BothOnward(st: State, st': State) { Onward(st.a, st'.a) && Onward(st.b, st'.b) }

  lemma StepOnward(seal: Sealing, st: State, act: Act)
    requires Inv(seal, st) && Enabled(st, act) && Smooth(act)
    ensures BothOnward(st, Apply(seal, st, act))
  {
    hide Send, Recv, SendEnabled, RecvEnabled, Lasts, Waiting, Locks, Payloads, Received, OnWire;
    var near, far := Near(st, act.first), Near(st, !act.first);
    match act
    case Sends(_, s) => SendOnward(seal, near, s);
    case Receives(_, r) => RecvOnward(seal, near, far, r);
  }

  lemma OnwardOn(x: State, y: State, z: State)
    requires BothOnward(x, y) && BothOnward(y, z)
    ensures BothOnward(x, z)
  {
    hide Lasts, Waiting;
  }

  lemma NobodyWaits(e: End)
    requires forall t: nat :: PcOf(e, t).Idle?
    ensures Waiting(e) == multiset{}
  {
    NoLoads(e.threads.Keys, e);
  }

  lemma {:induction false} NoLoads(ts: set<nat>, e: End)
    requires forall t: nat :: PcOf(e, t).Idle?
    ensures Loads(ts, e) == multiset{}
    decreases |ts|
  {
    if ts != {} {
      var t :| t in ts;
      LoadsAt(ts, e, t);
      NoLoads(ts - {t}, e);
    }
  }

  // ----- every run can be completed -----

  lemma Extend(seal: Sealing, path: seq<State>, acts: seq<Act>, act: Act)
    requires IsRun(seal, path, acts) && Enabled(path[|acts|], act)
    ensures IsRun(seal, path + [Apply(seal, path[|acts|], act)], acts + [act])
  {
    hide Enabled, Apply;
  }

  /** Every run goes on, by steps of the threads already inside and without failures, to a link at rest. */
  lemma {:induction false} Completes(seal: Sealing, path: seq<State>, acts: seq<Act>) returns (path': seq<State>, acts': seq<Act>)
    requires Tagged(seal) && IsRun(seal, path, acts)
    ensures IsRun(seal, path', acts') && path <= path' && acts <= acts' && AtRest(path'[|acts'|])
    ensures forall k | |acts| <= k < |acts'| :: Smooth(acts'[k])
    ensures BothOnward(path[|acts|], path'[|acts'|])
    decreases Work(path[|acts|])
  {
    hide Enabled, Apply, Inv, Work, AtRest, Tagged, BothOnward;
    var st := path[|acts|];
    RunInv(seal, path, acts, |acts|);
    if AtRest(st) {
      path', acts' := path, acts;
      AlreadyThere(st);
    } else {
      NeverStuck(seal, st);
      var act :| Smooth(act) && Enabled(st, act);
      StepWork(seal, st, act);
      WorkLeft(seal, st);
      Extend(seal, path, acts, act);
      StepOnward(seal, st, act);
      path', acts' := Completes(seal, path + [Apply(seal, st, act)], acts + [act]);
      OnwardOn(st, Apply(seal, st, act), path'[|acts'|]);
    }
  }

  lemma AlreadyThere(st: State)
    ensures BothOnward(st, st)
  {}

  /** From `e` to `e'` every call has returned and `far'` has returned all that was encrypted, the payloads
      that were waiting included, as long as they are fewer than 2^64. */
  ghost predicate Delivered(e: End, e': End, far': End) {
    && (forall t: nat :: PcOf(e', t).Idle?) && far'.got == e'.log && e.log <= e'.log
    && (Lasts(e) ==> multiset(far'.got) == multiset(e.log) + Waiting(e))
  }

  /** As long as no write has failed and no reader has given up, everything handed to `send`, in both
      directions, can still be delivered: the run goes on, without failures, to where it has been. */
  lemma AllDelivered(seal: Sealing, path: seq<State>, acts: seq<Act>) returns (path': seq<State>, acts': seq<Act>)
    requires Tagged(seal) && IsRun(seal, path, acts)
    requires var st := path[|acts|];
             st.a.tear.None? && st.b.tear.None? && !st.a.reader.HungUp? && !st.b.reader.HungUp?
    ensures IsRun(seal, path', acts') && path <= path' && acts <= acts'
    ensures forall k | |acts| <= k < |acts'| :: Smooth(acts'[k])
    ensures var st, st' := path[|acts|], path'[|acts'|];
            Delivered(st.a, st'.a, st'.b) && Delivered(st.b, st'.b, st'.a)
  {
    hide Enabled, Apply, Inv, Tagged, Lasts, Waiting;
    path', acts' := Completes(seal, path, acts);
    NothingLost(seal, path', acts', |acts'|, true);
    NothingLost(seal, path', acts', |acts'|, false);
    NobodyWaits(path'[|acts'|].a);
    NobodyWaits(path'[|acts'|].b);
  }
}
