/** How an attach can overwrite an entry: a call is answered, its link fails, the caller tries again,
    and the callee answers the second call before it has attached the first. */
module MeshRedial {
  import opened MeshNode
  import opened MeshModel
  import opened MeshSafety
  import opened MeshWeave
  import opened MeshTheorems
  import opened MeshFull
  import opened MeshProgress

  /** The callee of a first call has seen the caller on its roster and has not answered yet. */
  ghost predicate Hearing(s: State, l: LinkId) {
    l < |s.links| &&
    var p, q := s.links[l].caller, s.links[l].callee;
    && s.links[l] == Link(MeshLink, p, q, [], [], false, AwaitAck(q, 0), Seen(p))
    && p != q && p in s.nodes && q in s.nodes && s.nodes[p].running && s.nodes[q].running
    && s.nodes[p].room == s.nodes[q].room && p in s.nodes[q].roster && p !in s.nodes[q].peers
  }

  // ----- a run that gets there -----

  ghost predicate PastRoster(far: Phase) { far.Seen? || far.Acking? || Acked(far) }

  ghost predicate Unchecked(k: Link) { k.kind.MeshLink? && (k.far.Fresh? || k.far.Held?) }

  /** What a step can do to one link: it stays the same call, it starts fresh, and only one kind of step
      takes the callee of a mesh call past its roster check. */
  ghost predicate LinkStep(s: State, t: State, a: Action, l: LinkId) {
    && |s.links| <= |t.links|
    && (l < |s.links| ==> t.links[l].kind == s.links[l].kind)
    && (|s.links| <= l < |t.links| ==> t.links[l].far.Fresh?)
    && (l < |s.links| && Unchecked(s.links[l]) && PastRoster(t.links[l].far) ==> a == SeeRoster(l))
  }

  predicate Asks(a: Action) {
    a.JoinStart? || a.JoinDial? || a.JoinFail? || a.TakeWelcomeMsg? || a.JoinRefused? || a.AttachHost?
  }

  lemma LinkStepAsk(s: State, a: Action, l: LinkId)
    requires Asks(a) && JoinEnabled(s, a)
    ensures LinkStep(s, JoinApply(s, a), a, l)
  {}

  lemma LinkStepDecide(s: State, a: Action, l: LinkId)
    requires !Asks(a) && JoinEnabled(s, a)
    ensures LinkStep(s, JoinApply(s, a), a, l)
  {}

  lemma LinkStepJoin(s: State, a: Action, l: LinkId)
    requires JoinEnabled(s, a)
    ensures LinkStep(s, JoinApply(s, a), a, l)
  {
    hide JoinEnabled, JoinApply, LinkStep, Asks;
    if Asks(a) { LinkStepAsk(s, a, l); } else { LinkStepDecide(s, a, l); }
  }

  lemma LinkStepApproval(s: State, a: Action, l: LinkId)
    requires ApprovalEnabled(s, a)
    ensures LinkStep(s, ApprovalApply(s, a), a, l)
  {}

  predicate Hears(a: Action) { a.TakeMeshHello? || a.SeeRoster? || a.Expire? || a.CheckLinked? || a.Ack? || a.BadFirst? }

  lemma LinkStepHear(s: State, a: Action, l: LinkId)
    requires Hears(a) && CallEnabled(s, a)
    ensures LinkStep(s, CallApply(s, a), a, l)
  {}

  lemma LinkStepDial(s: State, a: Action, l: LinkId)
    requires !Hears(a) && CallEnabled(s, a)
    ensures LinkStep(s, CallApply(s, a), a, l)
  {}

  lemma LinkStepCall(s: State, a: Action, l: LinkId)
    requires CallEnabled(s, a)
    ensures LinkStep(s, CallApply(s, a), a, l)
  {
    hide CallEnabled, CallApply, LinkStep, Hears;
    if Hears(a) { LinkStepHear(s, a, l); } else { LinkStepDial(s, a, l); }
  }

  predicate Reads(a: Action) { a.Read? || a.Eof? || a.CloseGone? || a.TellLeft? }

  lemma LinkStepRead(s: State, a: Action, l: LinkId)
    requires Reads(a) && RunningEnabled(s, a)
    ensures LinkStep(s, RunningApply(s, a), a, l)
  {}

  lemma LinkStepLeave(s: State, a: Action, l: LinkId)
    requires !Reads(a) && RunningEnabled(s, a)
    ensures LinkStep(s, RunningApply(s, a), a, l)
  {}

  lemma LinkStepRunning(s: State, a: Action, l: LinkId)
    requires RunningEnabled(s, a)
    ensures LinkStep(s, RunningApply(s, a), a, l)
  {
    hide RunningEnabled, RunningApply, LinkStep, Reads;
    if Reads(a) { LinkStepRead(s, a, l); } else { LinkStepLeave(s, a, l); }
  }

  lemma OneLinkStep(s: State, a: Action, l: LinkId)
    requires Enabled(s, a)
    ensures LinkStep(s, Apply(s, a), a, l)
  {
    hide JoinEnabled, JoinApply, ApprovalEnabled, ApprovalApply, CallEnabled, CallApply, RunningEnabled, RunningApply, LinkStep;
    if JoinEnabled(s, a) { LinkStepJoin(s, a, l); }
    else if ApprovalEnabled(s, a) { LinkStepApproval(s, a, l); }
    else if CallEnabled(s, a) { LinkStepCall(s, a, l); }
    else { LinkStepRunning(s, a, l); }
  }

  /** A mesh call past the roster check has passed it at some step. */
  lemma {:induction false} CheckedBefore(path: seq<State>, acts: seq<Action>, i: nat, l: LinkId) returns (k: nat)
    requires CalmRun(path, acts) && i < |path| && l < |path[i].links|
    requires path[i].links[l].kind.MeshLink? && PastRoster(path[i].links[l].far)
    ensures k < i && k < |acts| && acts[k] == SeeRoster(l) && l < |path[k].links| && path[k].links[l].kind.MeshLink?
  {
    hide Enabled, Apply, Safe, Weave, Init;
    assert i > 0 by { NoLinksAtFirst(path, acts); }
    var s, a := path[i - 1], acts[i - 1];
    OneLinkStep(s, a, l);
    if l < |s.links| && PastRoster(s.links[l].far) {
      k := CheckedBefore(path, acts, i - 1, l);
    } else {
      k := i - 1;
      if l < |s.links| {
        RunWeave(path, acts, i - 1);
        CalmFar(s, l);
      }
    }
  }

  lemma NoLinksAtFirst(path: seq<State>, acts: seq<Action>)
    requires CalmRun(path, acts)
    ensures |path| > 0 && path[0].links == []
  {}

  lemma CalmFar(s: State, l: LinkId)
    requires Weave(s) && l < |s.links| && s.links[l].kind.MeshLink?
    ensures PastRoster(s.links[l].far) || s.links[l].far.Fresh? || s.links[l].far.Held?
  {
    hide Safe, NodesCalm, TasksCalm, NoFarewell, JoinIndex, MeshIndex, StagesOk, EntriesOk, BackOk, TodoOk, PairsOk, JoinCalm;
    assert LinkCalm(s.a, s.nodes, s.links[l]);
  }

  /** Right after the check the callee is hearing the call. */
  lemma CheckedHears(s: State, l: LinkId)
    requires Safe(s) && Weave(s) && CanSeeRoster(s, l) && s.links[l].kind.MeshLink?
    ensures Hearing(DoSeeRoster(s, l), l)
  {
    hide Safe, TasksCalm, NoFarewell, JoinIndex, MeshIndex, EntriesOk, BackOk, TodoOk, PairsOk, QueueOk;
    AllLinksOk(s, l);
    WeaveAt(s, l);
  }

  // ----- from there to the overwritten entry -----

  lemma PutTwice(s: State, m: LinkId, k: Link, j: Link)
    requires m < |s.links|
    ensures PutLink(PutLink(s, m, k), m, j) == PutLink(s, m, j)
  {
    assert s.links[m := k][m := j] == s.links[m := j];
  }

  /** A call that has reached `far`, with `down` on its way back. */
  function Second(p: PeerId, q: PeerId, far: Phase, down: seq<Msg>): Link {
    Link(MeshLink, p, q, [], down, false, AwaitAck(q, 1), far)
  }

  /** The first call, as far as its two ends have got. */
  function First(p: PeerId, q: PeerId, near: Phase, far: Phase, down: seq<Msg>, cut: bool): Link {
    Link(MeshLink, p, q, [], down, cut, near, far)
  }

  /** The call is answered. */
  lemma FirstAnswered(s: State, l: LinkId, p: PeerId, q: PeerId)
    requires Hearing(s, l) && p == s.links[l].caller && q == s.links[l].callee
    ensures var t := PutLink(s, l, First(p, q, AwaitAck(q, 0), Acking(p), [], false));
            && Enabled(s, CheckLinked(l)) && Apply(s, CheckLinked(l)) == t
            && Enabled(t, Ack(l, true))
            && Apply(t, Ack(l, true)) == PutLink(s, l, First(p, q, AwaitAck(q, 0), CallerAttach(p), [MeshAck(q)], false))
  {
    var t := PutLink(s, l, First(p, q, AwaitAck(q, 0), Acking(p), [], false));
    assert DoCheckLinked(s, l) == t;
    assert [] + [MeshAck(q)] == [MeshAck(q)];
    PutTwice(s, l, t.links[l], First(p, q, AwaitAck(q, 0), CallerAttach(p), [MeshAck(q)], false));
    assert DoAck(t, l, true) == PutLink(t, l, First(p, q, AwaitAck(q, 0), CallerAttach(p), [MeshAck(q)], false));
  }

  /** The answer is lost with its link. */
  lemma FirstLost(s: State, l: LinkId, p: PeerId, q: PeerId)
    requires l < |s.links| && p in s.nodes && q in s.nodes
    ensures var t := PutLink(s, l, First(p, q, AwaitAck(q, 0), CallerAttach(p), [MeshAck(q)], false));
            && Enabled(t, Cut(l, 0, 0))
            && Apply(t, Cut(l, 0, 0)) == PutLink(s, l, First(p, q, AwaitAck(q, 0), CallerAttach(p), [], true))
  {
    var t := PutLink(s, l, First(p, q, AwaitAck(q, 0), CallerAttach(p), [MeshAck(q)], false));
    PutTwice(s, l, t.links[l], First(p, q, AwaitAck(q, 0), CallerAttach(p), [], true));
    assert DoCut(t, l, 0, 0) == PutLink(t, l, First(p, q, AwaitAck(q, 0), CallerAttach(p), [], true));
  }

  lemma FirstFailed(s: State, l: LinkId, p: PeerId, q: PeerId)
    requires l < |s.links| && p in s.nodes && q in s.nodes && s.nodes[p].running
    ensures var t := PutLink(s, l, First(p, q, AwaitAck(q, 0), CallerAttach(p), [], true));
            && Enabled(t, CallFailed(l))
            && Apply(t, CallFailed(l)) ==
                 PutLink(s, l, First(p, q, Ended, CallerAttach(p), [], true)).(dials := s.dials + {Call(p, q, 1)})
  {
    var t := PutLink(s, l, First(p, q, AwaitAck(q, 0), CallerAttach(p), [], true));
    PutTwice(s, l, t.links[l], First(p, q, Ended, CallerAttach(p), [], true));
    assert DoCallFailed(t, l) ==
           PutLink(t, l, First(p, q, Ended, CallerAttach(p), [], true)).(dials := s.dials + {Call(p, q, 1)});
  }

  /** The caller tries again. */
  lemma CalledAgain(s: State, p: PeerId, q: PeerId) returns (t: State)
    requires p in s.nodes && q in s.nodes && s.nodes[q].running && Call(p, q, 1) in s.dials
    ensures Enabled(s, Dial(Call(p, q, 1))) && t == Apply(s, Dial(Call(p, q, 1)))
    ensures t.nodes == s.nodes && t.links == s.links + [Second(p, q, Fresh, []).(up := [MeshHello(s.nodes[p].room, p)])]
  {
    t := DoDial(s, Call(p, q, 1));
  }

  lemma SecondHeard(s: State, m: LinkId, p: PeerId, q: PeerId)
    requires m < |s.links| && p in s.nodes && q in s.nodes
    requires s.links[m] == Second(p, q, Fresh, []).(up := [MeshHello(s.nodes[q].room, p)])
    ensures Enabled(s, TakeMeshHello(m)) && Apply(s, TakeMeshHello(m)) == PutLink(s, m, Second(p, q, Held(p), []))
  {
    assert s.links[m].up[1..] == [];
    assert DoTakeMeshHello(s, m) == PutLink(s, m, Second(p, q, Held(p), []));
  }

  lemma SecondChecked(s: State, m: LinkId, p: PeerId, q: PeerId)
    requires m < |s.links| && p in s.nodes && q in s.nodes && p in s.nodes[q].roster && p !in s.nodes[q].peers
    ensures var t := PutLink(s, m, Second(p, q, Held(p), []));
            Enabled(t, SeeRoster(m)) && Apply(t, SeeRoster(m)) == PutLink(s, m, Second(p, q, Seen(p), []))
    ensures var t := PutLink(s, m, Second(p, q, Seen(p), []));
            Enabled(t, CheckLinked(m)) && Apply(t, CheckLinked(m)) == PutLink(s, m, Second(p, q, Acking(p), []))
  {
    PutTwice(s, m, Second(p, q, Held(p), []), Second(p, q, Seen(p), []));
    PutTwice(s, m, Second(p, q, Seen(p), []), Second(p, q, Acking(p), []));
  }

  lemma SecondAnswered(s: State, m: LinkId, p: PeerId, q: PeerId)
    requires m < |s.links| && p in s.nodes && q in s.nodes
    ensures var t := PutLink(s, m, Second(p, q, Acking(p), []));
            Enabled(t, Ack(m, true)) && Apply(t, Ack(m, true)) == PutLink(s, m, Second(p, q, CallerAttach(p), [MeshAck(q)]))
  {
    PutTwice(s, m, Second(p, q, Acking(p), []), Second(p, q, CallerAttach(p), [MeshAck(q)]));
    var t := PutLink(s, m, Second(p, q, Acking(p), []));
    assert [] + [MeshAck(q)] == [MeshAck(q)];
    assert DoAck(t, m, true) == PutLink(t, m, Second(p, q, CallerAttach(p), [MeshAck(q)]));
  }

  lemma Attached(s: State, m: LinkId, p: PeerId, q: PeerId) returns (t: State)
    requires m < |s.links| && s.links[m].caller == p && s.links[m].callee == q && s.links[m].far == CallerAttach(p)
    requires p in s.nodes && q in s.nodes && s.nodes[q].running
    ensures Enabled(s, AttachCaller(m)) && t == Apply(s, AttachCaller(m)) && Attaches(s, AttachCaller(m), q, p)
    ensures t.links == s.links[m := s.links[m].(far := Reading(p))] && t.nodes == s.nodes[q := Attach(s.nodes[q], p, m)]
  {
    t := DoAttachCaller(s, m);
  }

  lemma ReaderEnds(s: State, l: LinkId, p: PeerId, q: PeerId) returns (t: State)
    requires l < |s.links| && s.links[l].caller == p && s.links[l].callee == q && s.links[l].far == Reading(p)
    requires s.links[l].cut && s.links[l].up == [] && p in s.nodes && q in s.nodes && p in s.nodes[q].peers
    ensures Enabled(s, Eof(l, Callee)) && t == Apply(s, Eof(l, Callee))
    ensures |t.links| == |s.links| && t.links == s.links[l := t.links[l]] && q in t.nodes && p !in t.nodes[q].peers
  {
    t := DoEof(s, l, Callee);
  }

  // ----- the run -----

  lemma Next(path: seq<State>, acts: seq<Action>, a: Action, t: State) returns (path': seq<State>, acts': seq<Action>)
    requires IsRun(path, acts) && Enabled(path[|acts|], a) && Apply(path[|acts|], a) == t
    ensures IsRun(path', acts') && path' == path + [t] && acts' == acts + [a] && |path'| == |acts'| + 1 && path'[|acts'|] == t
  {
    hide Enabled, Apply, Init;
    path', acts' := path + [t], acts + [a];
  }

  /** From a heard call to the overwritten entry, and to the live link nobody holds. */
  lemma Overwritten(path: seq<State>, acts: seq<Action>, l: LinkId) returns (path': seq<State>, acts': seq<Action>)
    requires IsRun(path, acts) && |path| == |acts| + 1 && Hearing(path[|acts|], l)
    ensures IsRun(path', acts') && |path'| == |acts'| + 1 && |acts'| >= 2
    ensures var s, t, p, q := path'[|acts'| - 2], path'[|acts'|], path[|acts|].links[l].caller, path[|acts|].links[l].callee;
            var m := |path[|acts|].links|;
            && acts'[|acts'| - 2] == AttachCaller(m) && Attaches(s, AttachCaller(m), q, p)
            && q in s.nodes && p in s.nodes[q].peers && s.nodes[q].peers[p] == l
            && LiveUnheld(t, m, p, q)
  {
    hide IsRun, Enabled, Apply;
    var s := path[|acts|];
    var p, q, m := s.links[l].caller, s.links[l].callee, |s.links|;
    path', acts' := Redialled(path, acts, l);
    path', acts' := Answered(path', acts', m, p, q);
    var u := path'[|acts'|];
    assert u.links[l] == First(p, q, Ended, CallerAttach(p), [], true);
    var u1 := Attached(u, l, p, q);
    path', acts' := Next(path', acts', AttachCaller(l), u1);
    var u2 := Attached(u1, m, p, q);
    path', acts' := Next(path', acts', AttachCaller(m), u2);
    var u3 := ReaderEnds(u2, l, p, q);
    path', acts' := Next(path', acts', Eof(l, Callee), u3);
  }

  lemma Redialled(path: seq<State>, acts: seq<Action>, l: LinkId) returns (path': seq<State>, acts': seq<Action>)
    requires IsRun(path, acts) && |path| == |acts| + 1 && Hearing(path[|acts|], l)
    ensures IsRun(path', acts') && |path'| == |acts'| + 1
    ensures var s := path[|acts|];
            var p, q := s.links[l].caller, s.links[l].callee;
            && path'[|acts'|].nodes == s.nodes
            && path'[|acts'|].links == s.links[l := First(p, q, Ended, CallerAttach(p), [], true)] +
                                       [Second(p, q, Fresh, []).(up := [MeshHello(s.nodes[p].room, p)])]
  {
    hide IsRun, Enabled, Apply, First, Second;
    var s := path[|acts|];
    var p, q := s.links[l].caller, s.links[l].callee;
    FirstAnswered(s, l, p, q);
    FirstLost(s, l, p, q);
    FirstFailed(s, l, p, q);
    var failed := PutLink(s, l, First(p, q, Ended, CallerAttach(p), [], true)).(dials := s.dials + {Call(p, q, 1)});
    var again := CalledAgain(failed, p, q);
    path', acts' := Next(path, acts, CheckLinked(l), PutLink(s, l, First(p, q, AwaitAck(q, 0), Acking(p), [], false)));
    path', acts' := Next(path', acts', Ack(l, true),
                         PutLink(s, l, First(p, q, AwaitAck(q, 0), CallerAttach(p), [MeshAck(q)], false)));
    path', acts' := Next(path', acts', Cut(l, 0, 0), PutLink(s, l, First(p, q, AwaitAck(q, 0), CallerAttach(p), [], true)));
    path', acts' := Next(path', acts', CallFailed(l), failed);
    path', acts' := Next(path', acts', Dial(Call(p, q, 1)), again);
  }

  /** Link `m` is alive and being read at `q`, but `q` does not hold it. */
  ghost predicate LiveUnheld(s: State, m: LinkId, p: PeerId, q: PeerId) {
    m < |s.links| && s.links[m] == Second(p, q, Reading(p), [MeshAck(q)]) && q in s.nodes && p !in s.nodes[q].peers
  }

  lemma Answered(path: seq<State>, acts: seq<Action>, m: LinkId, p: PeerId, q: PeerId)
    returns (path': seq<State>, acts': seq<Action>)
    requires IsRun(path, acts) && |path| == |acts| + 1 && m < |path[|acts|].links|
    requires var s := path[|acts|];
             && p in s.nodes && q in s.nodes && p in s.nodes[q].roster && p !in s.nodes[q].peers
             && s.links[m] == Second(p, q, Fresh, []).(up := [MeshHello(s.nodes[q].room, p)])
    ensures IsRun(path', acts') && |path'| == |acts'| + 1
    ensures path'[|acts'|] == PutLink(path[|acts|], m, Second(p, q, CallerAttach(p), [MeshAck(q)]))
  {
    hide IsRun, Enabled, Apply, Second, PutLink;
    var s := path[|acts|];
    SecondHeard(s, m, p, q);
    SecondChecked(s, m, p, q);
    SecondAnswered(s, m, p, q);
    path', acts' := Next(path, acts, TakeMeshHello(m), PutLink(s, m, Second(p, q, Held(p), [])));
    path', acts' := Next(path', acts', SeeRoster(m), PutLink(s, m, Second(p, q, Seen(p), [])));
    path', acts' := Next(path', acts', CheckLinked(m), PutLink(s, m, Second(p, q, Acking(p), [])));
    path', acts' := Next(path', acts', Ack(m, true), PutLink(s, m, Second(p, q, CallerAttach(p), [MeshAck(q)])));
  }

  // ----- from the start to a heard call -----

  /** The host carries out the first approval: nobody else is there to be told. */
  lemma ListRead(s: State) returns (s1: State, s2: State)
    requires |s.links| == 1 && s.links[0].far.Taken? && s.links[0].callee == 0 && s.links[0].far.peer == s.links[0].caller == 1
    requires s.a.host == 0 && 0 in s.nodes && 1 in s.nodes && s.nodes[0].peers == map[]
    ensures Enabled(s, Snapshot(0)) && s1 == Apply(s, Snapshot(0))
    ensures Enabled(s1, Enroll(0)) && s2 == Apply(s1, Enroll(0))
    ensures |s2.links| == 1 && s2.links[0].far.Greeting? && s2.links[0].callee == 0 && s2.links[0].far.peer == s2.links[0].caller == 1
    ensures s2.a.host == 0 && s2.joining == s.joining && s2.nodes == s.nodes[0 := AddToRoster(s.nodes[0], 1)]
  {
    s1 := DoSnapshot(s, 0);
    s2 := DoEnroll(s1, 0);
  }

  lemma Welcomed1(s: State) returns (s1: State, s2: State)
    requires |s.links| == 1 && s.links[0].far.Greeting? && s.links[0].callee == 0 && s.links[0].far.peer == s.links[0].caller == 1
    requires s.a.host == 0 && 0 in s.nodes && 1 in s.nodes && s.nodes[0].running
    ensures Enabled(s, Greet(0, true)) && s1 == Apply(s, Greet(0, true))
    ensures Enabled(s1, Admit(0)) && s2 == Apply(s1, Admit(0))
    ensures |s2.links| == 1 && s2.a.host == 0 && s2.joining == s.joining
    ensures s2.nodes == s.nodes[0 := Attach(s.nodes[0], 1, 0)]
  {
    s1 := DoGreet(s, 0, true);
    s2 := DoAdmit(s1, 0);
  }

  lemma HeldBacked(s: State, n: PeerId, q: PeerId)
    requires BackOk(s.nodes, s.links) && n in s.nodes
    ensures q in s.nodes[n].peers ==> exists l :: Backed(s.links, n, q, l)
  {
    if q in s.nodes[n].peers { assert Backed(s.links, n, q, s.nodes[n].peers[q]); }
  }

  lemma NothingBacked(links: seq<Link>, q: PeerId)
    requires |links| == 1 && links[0].far.Taken? && links[0].callee == 0 && links[0].caller == 1
    ensures !exists l :: Backed(links, 0, q, l)
  {}

  /** No link is attached at the host while the only one is still being decided. */
  lemma NobodyYet(s: State)
    requires Safe(s) && Weave(s) && |s.links| == 1 && s.links[0].far.Taken? && 0 in s.nodes
    requires s.links[0].callee == 0 && s.links[0].caller == 1
    ensures s.nodes[0].peers == map[] && s.links[0].far.peer == s.links[0].caller
  {
    hide NodesOk, EndsOk, JoinsOk, CallsOk, DeskOk, ReqsOk, TasksCalm, NoFarewell, NodesCalm, LinksCalm, StagesOk, TodoOk, PairsOk,
      EntriesOk, JoinIndex, MeshIndex, QueueOk, NearOk, Backed, BackOk;
    assert LinkOk(s.a, s.links[0]);
    forall q: PeerId ensures q !in s.nodes[0].peers {
      HeldBacked(s, 0, q);
      NothingBacked(s.links, q);
    }
  }

  /** Joiner 1 is admitted. */
  lemma OneAdmitted() returns (path: seq<State>, acts: seq<Action>)
    ensures CalmRun(path, acts) && |path| == |acts| + 1
    ensures var s := path[|acts|]; |s.links| == 1 && ReadyFor(s, 2) && 1 in s.nodes[0].peers
  {
    hide CalmRun, Enabled, Apply, Safe, Weave, Init;
    var s0 := TwoJoiners();
    StartReady(s0);
    path, acts := AskAndAccept([s0], [], 1);
    RunLength(path, acts);
    RunWeave(path, acts, |acts|);
    var s := path[|acts|];
    FirstAccepted(s0, s);
    NobodyYet(s);
    var s1, s2 := ListRead(s);
    var s3, s4 := Welcomed1(s2);
    path, acts := MeshProgress.Then(path, acts, Snapshot(0));
    path, acts := MeshProgress.Then(path, acts, Enroll(0));
    path, acts := MeshProgress.Then(path, acts, Greet(0, true));
    path, acts := MeshProgress.Then(path, acts, Admit(0));
    SecondReady(s, s4);
  }

  /** Joiner 1 is admitted and joiner 2 accepted; the host's list for 2 names 1. */
  lemma SecondListed() returns (path: seq<State>, acts: seq<Action>)
    ensures CalmRun(path, acts) && |path| == |acts| + 1
    ensures var s := path[|acts|]; 2 in s.a.lists && 1 in s.a.lists[2]
  {
    hide CalmRun, Enabled, Apply, Safe, Weave, Init, Accepting;
    path, acts := OneAdmitted();
    var s4 := path[|acts|];
    path, acts := AskAndAccept(path, acts, 2);
    RunLength(path, acts);
    RunWeave(path, acts, |acts|);
    ListNames(s4, path[|acts|]);
    path, acts := MeshProgress.Then(path, acts, Snapshot(1));
  }

  lemma FirstAccepted(s0: State, s: State)
    requires s0 == TwoJoiners() && Accepting(s0, s, 1)
    ensures |s.links| == 1 && s.links[0].far.Taken? && s.links[0].callee == 0 && s.links[0].caller == 1
    ensures s.a.host == 0 && 0 in s.nodes && 1 in s.nodes && s.nodes[0].running && s.nodes[0].roster == {}
    ensures s.nodes[0].role.Host? && 2 in s.nodes && s.nodes[2].role.Idle? && s.joining == {}
  {}

  lemma SecondReady(s: State, t: State)
    requires 0 in s.nodes && 2 in s.nodes && s.nodes[0].role.Host? && s.nodes[0].running && s.nodes[0].roster == {}
    requires s.nodes[2].role.Idle? && s.joining == {} && s.nodes[0].peers == map[]
    requires t.nodes == s.nodes[0 := AddToRoster(s.nodes[0], 1)][0 := Attach(AddToRoster(s.nodes[0], 1), 1, 0)]
    requires t.a.host == 0 && t.joining == s.joining
    ensures ReadyFor(t, 2) && 1 in t.nodes[0].peers
  {}

  lemma ListNames(s: State, u: State)
    requires Accepting(s, u, 2) && |s.links| == 1 && 0 in s.nodes && 1 in s.nodes[0].peers && 2 in s.nodes
    requires Safe(u)
    ensures Enabled(u, Snapshot(1))
    ensures var t := Apply(u, Snapshot(1)); 2 in t.a.lists && 1 in t.a.lists[2]
  {
    assert OnLink(u, 1);
    SnapshotAtHost(u, 1);
    hide Safe;
    assert Apply(u, Snapshot(1)) == DoSnapshot(u, 1);
  }

  /** From there the room settles, with 2 linked to 1; on the way 1 has checked its roster for 2. */
  lemma HeardState() returns (path: seq<State>, acts: seq<Action>, l: LinkId)
    ensures IsRun(path, acts) && |path| == |acts| + 1 && Hearing(path[|acts|], l)
  {
    hide Enabled, Apply, Safe, Weave, Settled, Init, Hearing;
    var p1, a1 := SecondListed();
    var p2, a2 := RoomSettles(p1, a1);
    RunLength(p2, a2);
    assert p2[|a1|] == p1[|a1|];
    ListsStay(p2, a2, |a1|, |a2|, 2);
    RunWeave(p2, a2, |a2|);
    l := MeshReached(p2[|a2|], 2, 1);
    var k := CheckedBefore(p2, a2, |a2|, l);
    RunWeave(p2, a2, k);
    SeeRosterEnabled(p2[k], l);
    CheckedHears(p2[k], l);
    path, acts := p2[..k + 2], a2[..k + 1];
    RunPrefix(p2, a2, k + 1);
  }

  lemma MeshReached(s: State, p: PeerId, q: PeerId) returns (l: LinkId)
    requires Safe(s) && Weave(s) && Settled(s) && p in s.a.lists && q in s.a.lists[p]
    ensures l < |s.links| && s.links[l].kind.MeshLink? && PastRoster(s.links[l].far)
  {
    hide Safe, TasksCalm, NoFarewell, NodesCalm, LinksCalm, JoinIndex, StagesOk, EntriesOk, BackOk, TodoOk, QueueOk, SettledLink, MeshIndex;
    ListedAccepted(s);
    SettledMember(s, p);
    MembersThere(s, p);
    ListedHasList(s, p, q);
    MembersThere(s, q);
    assert PairOk(s.h.joinLink, s.h.meshLink, s.nodes, s.links, s.dials, p, q);
    LinkedByIndex(s, p, q);
    l := s.h.meshLink[(p, q)];
    assert SettledLink(s.links[l]);
    MeshSettled(s.links[l]);
  }

  lemma ListedHasList(s: State, p: PeerId, q: PeerId)
    requires Safe(s) && p in s.a.lists && q in s.a.lists[p]
    ensures q in s.a.lists
  {}

  lemma SeeRosterEnabled(s: State, l: LinkId)
    requires Enabled(s, SeeRoster(l))
    ensures CanSeeRoster(s, l) && Apply(s, SeeRoster(l)) == DoSeeRoster(s, l)
  {}

  lemma RunPrefix(path: seq<State>, acts: seq<Action>, n: nat)
    requires CalmRun(path, acts) && n <= |acts|
    ensures |path| == |acts| + 1 && IsRun(path[..n + 1], acts[..n])
  {
    hide Enabled, Apply, Init;
  }

  /** A run in which an attach overwrites an entry, and then the reader of the overwritten link takes the
      entry of the one that is alive: the link stays up, and neither the map nor any thread of the node
      that would close it holds it. */
  lemma RetryOverwrites() returns (path: seq<State>, acts: seq<Action>, m: LinkId, p: PeerId, q: PeerId)
    ensures IsRun(path, acts) && |path| == |acts| + 1 && |acts| >= 2
    ensures var s := path[|acts| - 2];
            Attaches(s, acts[|acts| - 2], q, p) && q in s.nodes && p in s.nodes[q].peers && s.nodes[q].peers[p] != m
    ensures acts[|acts| - 2] == AttachCaller(m) && LiveUnheld(path[|acts|], m, p, q)
  {
    hide Enabled, Apply, Init, Hearing, LiveUnheld, Attaches;
    var p1, a1, l := HeardState();
    HearingLink(p1[|a1|], l);
    m, p, q := |p1[|a1|].links|, p1[|a1|].links[l].caller, p1[|a1|].links[l].callee;
    path, acts := Overwritten(p1, a1, l);
  }

  lemma HearingLink(s: State, l: LinkId)
    requires Hearing(s, l)
    ensures l < |s.links|
  {}
}
