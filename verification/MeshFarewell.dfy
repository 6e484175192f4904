/** Departures: who is told that a member is gone, what the word does, and what `leave` says. In every
    run, whatever else fails. */
module MeshFarewell {
  import opened MeshNode
  import opened MeshModel
  import opened MeshSafety
  import opened MeshTheorems
  import opened MeshLedger

  // ----- a message on its way -----

  function Far(e: End): End { if e.Caller? then Callee else Caller }

  /** The step takes message `m` from the inbox at end `e` of link `l`. */
  ghost predicate Takes(s: State, a: Action, l: LinkId, e: End, m: Msg) {
    && l < |s.links| && Inbox(s.links[l], e) != [] && Inbox(s.links[l], e)[0] == m
    && match a
       case TakeWelcomeMsg(k) => k == l && e.Caller? && m.Welcome?
       case TakeAck(k) => k == l && e.Caller? && m.MeshAck?
       case TakeHello(k, _) => k == l && e.Callee? && m.Hello?
       case TakeMeshHello(k) => k == l && e.Callee? && m.MeshHello?
       case Read(k, x) => k == l && x == e
       case _ => false
  }

  ghost predicate LinkKept(s: State, a: Action, t: State, l: LinkId)
    requires l < |s.links|
  {
    l < |t.links| && SameEnds(s.links[l], t.links[l]) && (s.links[l].cut ==> t.links[l].cut)
  }

  /** A message stays in its inbox until it is taken, or the link breaks or is closed. */
  ghost predicate MsgKept(s: State, a: Action, t: State, l: LinkId, e: End, m: Msg)
    requires l < |s.links|
  {
    && LinkKept(s, a, t, l)
    && (m in Inbox(s.links[l], e) ==> m in Inbox(t.links[l], e) || t.links[l].cut || Takes(s, a, l, e, m))
  }

  lemma Popped(k: Link, e: End, m: Msg)
    requires Inbox(k, e) != [] && m in Inbox(k, e)
    ensures m == Inbox(k, e)[0] || m in Inbox(Pop(k, e), e)
    ensures forall x | x in Inbox(k, Far(e)) :: x in Inbox(Pop(k, e), Far(e))
  {
    assert Inbox(k, e) == [Inbox(k, e)[0]] + Inbox(k, e)[1..];
  }

  predicate FirstReceive(a: Action) { a.TakeWelcomeMsg? || a.TakeHello? }

  lemma MsgFirst(s: State, a: Action, l: LinkId, e: End, m: Msg)
    requires JoinEnabled(s, a) && l < |s.links| && FirstReceive(a)
    ensures MsgKept(s, a, JoinApply(s, a), l, e, m)
  {
    hide HelloPasses, TakeWelcome;
    if m in Inbox(s.links[l], e) {
      var k := s.links[a.l];
      var x := if a.TakeWelcomeMsg? then Caller else Callee;
      if a.l == l && x == e { Popped(k, e, m); }
      if a.l == l && x != e { assert Inbox(Pop(k, x), e) == Inbox(k, e); }
    }
  }

  lemma MsgJoin(s: State, a: Action, l: LinkId, e: End, m: Msg)
    requires JoinEnabled(s, a) && l < |s.links| && !FirstReceive(a)
    ensures MsgKept(s, a, JoinApply(s, a), l, e, m)
  {
    hide Attach, FirstCalls;
  }

  lemma MsgApproval(s: State, a: Action, l: LinkId, e: End, m: Msg)
    requires ApprovalEnabled(s, a) && l < |s.links|
    ensures MsgKept(s, a, ApprovalApply(s, a), l, e, m)
  {
    hide Attach;
  }

  lemma MsgCall(s: State, a: Action, l: LinkId, e: End, m: Msg)
    requires CallEnabled(s, a) && l < |s.links| && !a.TakeAck? && !a.TakeMeshHello?
    ensures MsgKept(s, a, CallApply(s, a), l, e, m)
  {
    hide Attach, Retry;
  }

  lemma MsgAck(s: State, x: LinkId, l: LinkId, e: End, m: Msg)
    requires CanTakeAck(s, x) && l < |s.links|
    ensures MsgKept(s, TakeAck(x), DoTakeAck(s, x), l, e, m)
  {
    hide Attach;
    if x == l && m in Inbox(s.links[l], e) {
      if e.Caller? { Popped(s.links[x], e, m); } else { assert Pop(s.links[x], Caller).up == s.links[x].up; }
    }
  }

  lemma MsgMeshHello(s: State, x: LinkId, l: LinkId, e: End, m: Msg)
    requires CanTakeMeshHello(s, x) && l < |s.links|
    ensures MsgKept(s, TakeMeshHello(x), DoTakeMeshHello(s, x), l, e, m)
  {
    if x == l && m in Inbox(s.links[l], e) {
      if e.Callee? { Popped(s.links[x], e, m); } else { assert Pop(s.links[x], Callee).down == s.links[x].down; }
    }
  }

  /** What reading a message does to the link. */
  lemma ReadLink(s: State, x: LinkId, y: End)
    requires CanRead(s, x, y)
    ensures var k, t := s.links[x], DoRead(s, x, y);
            && |t.links| == |s.links| && (forall l | 0 <= l < |s.links| && l != x :: t.links[l] == s.links[l])
            && SameEnds(k, t.links[x]) && t.links[x].cut == k.cut
            && t.links[x].up == Pop(k, y).up && t.links[x].down == Pop(k, y).down
  {
    hide Detach, AddToRoster, DropFromRoster;
  }

  lemma MsgRead(s: State, x: LinkId, y: End, l: LinkId, e: End, m: Msg)
    requires CanRead(s, x, y) && l < |s.links|
    ensures MsgKept(s, Read(x, y), DoRead(s, x, y), l, e, m)
  {
    ReadLink(s, x, y);
    hide DoRead;
    if m in Inbox(s.links[l], e) {
      var k := s.links[x];
      if x == l && y == e { Popped(k, e, m); }
      if x == l && y != e { assert Inbox(Pop(k, y), e) == Inbox(k, e); }
    }
  }

  lemma MsgRest(s: State, a: Action, l: LinkId, e: End, m: Msg)
    requires RunningEnabled(s, a) && l < |s.links| && !a.Read?
    ensures MsgKept(s, a, RunningApply(s, a), l, e, m)
  {
    hide Detach, Drain;
  }

  lemma StepMsg(s: State, a: Action, l: LinkId, e: End, m: Msg)
    requires Enabled(s, a) && l < |s.links|
    ensures MsgKept(s, a, Apply(s, a), l, e, m)
  {
    hide MsgKept, JoinEnabled, JoinApply, ApprovalEnabled, ApprovalApply, CanRead, DoRead, CanTakeAck, DoTakeAck,
      CanTakeMeshHello, DoTakeMeshHello;
    if JoinEnabled(s, a) { if FirstReceive(a) { MsgFirst(s, a, l, e, m); } else { MsgJoin(s, a, l, e, m); } }
    else if ApprovalEnabled(s, a) { MsgApproval(s, a, l, e, m); }
    else if CallEnabled(s, a) {
      if a.TakeAck? { MsgAck(s, a.l, l, e, m); }
      else if a.TakeMeshHello? { MsgMeshHello(s, a.l, l, e, m); }
      else { MsgCall(s, a, l, e, m); }
    }
    else if a.Read? { MsgRead(s, a.l, a.e, l, e, m); }
    else { MsgRest(s, a, l, e, m); }
  }

  // ----- a link that is cut -----

  /** Nothing is put into the inboxes of a cut link. */
  ghost predicate Silent(s: State, t: State, l: LinkId, e: End)
    requires l < |s.links|
  {
    l < |t.links| && (s.links[l].cut ==> forall m | m in Inbox(t.links[l], e) :: m in Inbox(s.links[l], e))
  }

  lemma SilentJoin(s: State, a: Action, l: LinkId, e: End)
    requires JoinEnabled(s, a) && l < |s.links|
    ensures Silent(s, JoinApply(s, a), l, e)
  {
    hide HelloPasses, TakeWelcome, Attach, FirstCalls, ParkRequest, RemoveRequest, StartJoin, Stop;
  }

  lemma SilentApproval(s: State, a: Action, l: LinkId, e: End)
    requires ApprovalEnabled(s, a) && l < |s.links|
    ensures Silent(s, ApprovalApply(s, a), l, e)
  {
    hide Attach, AddToRoster;
  }

  lemma SilentCall(s: State, a: Action, l: LinkId, e: End)
    requires CallEnabled(s, a) && l < |s.links|
    ensures Silent(s, CallApply(s, a), l, e)
  {
    hide Attach, Retry;
  }

  lemma SilentRunning(s: State, a: Action, l: LinkId, e: End)
    requires RunningEnabled(s, a) && l < |s.links| && !a.Read? && !a.DrainNode?
    ensures Silent(s, RunningApply(s, a), l, e)
  {
    hide Detach, AddToRoster, DropFromRoster, Stop, DoRead, DoDrain;
  }

  lemma SilentRead(s: State, m: LinkId, x: End, l: LinkId, e: End)
    requires CanRead(s, m, x) && l < |s.links|
    ensures Silent(s, DoRead(s, m, x), l, e)
  {
    hide Detach, AddToRoster, DropFromRoster;
  }

  lemma SilentDrain(s: State, n: PeerId, all: bool, l: LinkId, e: End)
    requires CanDrain(s, n, all) && l < |s.links|
    ensures Silent(s, DoDrain(s, n, all), l, e)
  {
    hide Drain;
  }

  lemma StepSilent(s: State, a: Action, l: LinkId, e: End)
    requires Enabled(s, a) && l < |s.links|
    ensures Silent(s, Apply(s, a), l, e)
  {
    hide Silent, JoinEnabled, JoinApply, ApprovalEnabled, ApprovalApply, CallEnabled, CallApply, CanRead, DoRead, CanDrain, DoDrain;
    if JoinEnabled(s, a) { SilentJoin(s, a, l, e); }
    else if ApprovalEnabled(s, a) { SilentApproval(s, a, l, e); }
    else if CallEnabled(s, a) { SilentCall(s, a, l, e); }
    else if a.Read? { SilentRead(s, a.l, a.e, l, e); }
    else if a.DrainNode? { SilentDrain(s, a.n, a.all, l, e); }
    else { SilentRunning(s, a, l, e); }
  }

  /** Once a link is cut, what can still be read from it was on its way by then. */
  lemma {:induction false} CutStaysSilent(path: seq<State>, acts: seq<Action>, i: nat, j: nat, l: LinkId, e: End, m: Msg)
    requires IsRun(path, acts) && i <= j < |path| && l < |path[i].links| && path[i].links[l].cut
    ensures l < |path[j].links| && path[j].links[l].cut
    ensures m in Inbox(path[j].links[l], e) ==> m in Inbox(path[i].links[l], e)
  {
    hide Enabled, Apply, Silent, LinkKept;
    if i < j {
      CutStaysSilent(path, acts, i, j - 1, l, e, m);
      StepMsg(path[j - 1], acts[j - 1], l, e, m);
      StepSilent(path[j - 1], acts[j - 1], l, e);
      StaysCut(path[j - 1], acts[j - 1], path[j], l, e, m);
    }
  }

  lemma StaysCut(s: State, a: Action, t: State, l: LinkId, e: End, m: Msg)
    requires l < |s.links| && s.links[l].cut && LinkKept(s, a, t, l) && Silent(s, t, l, e)
    ensures l < |t.links| && t.links[l].cut && (m in Inbox(t.links[l], e) ==> m in Inbox(s.links[l], e))
  {}

  /** A reader comes to the end of its link only when it has read everything. */
  lemma ReadToTheEnd(path: seq<State>, acts: seq<Action>, i: nat, l: LinkId, e: End)
    requires IsRun(path, acts) && i < |acts| && acts[i] == Eof(l, e)
    ensures l < |path[i].links| && path[i].links[l].cut && Inbox(path[i].links[l], e) == []
  {
    assert Enabled(path[i], acts[i]);
    hide Apply, JoinEnabled, ApprovalEnabled, CallEnabled;
  }

  // ----- what is still to be said -----

  /** End `e` of link `l` sends `m`: it is the last in the other end's inbox, unless the link was cut. */
  ghost predicate Said(s: State, t: State, l: LinkId, e: End, m: Msg) {
    l < |s.links| && l < |t.links| &&
    (s.links[l].cut || Inbox(t.links[l], Far(e)) == Inbox(s.links[l], Far(e)) + [m])
  }

  /** The step says Bye at end `e` of link `m`, unless the link was cut already, and closes it. */
  ghost predicate SaysBye(s: State, a: Action, t: State, m: LinkId, e: End) {
    a == SayBye(m, e) && Said(s, t, m, e, Bye) && m < |t.links| && t.links[m].cut
  }

  ghost predicate DuesKept(s: State, a: Action, t: State) {
    && (forall x | x in s.lefts :: x in t.lefts || (a == TellLeft(x.0, x.1) && x.0 < |s.links| && Said(s, t, x.0, EndOf(s.links[x.0], s.a.host), PeerLeft(x.1))))
    && (forall x | x in s.byes :: x in t.byes || SaysBye(s, a, t, x.0, x.1))
    && (forall x | x in s.drains :: x in t.drains || a == DrainNode(x.0, x.1))
    && t.a.host == s.a.host
  }

  lemma DuesJoin(s: State, a: Action)
    requires JoinEnabled(s, a)
    ensures DuesKept(s, a, JoinApply(s, a))
  {
    hide Refuse, Push, Pop, HelloPasses, Attach, FirstCalls, Said, SaysBye;
  }

  lemma DuesApproval(s: State, a: Action)
    requires ApprovalEnabled(s, a)
    ensures DuesKept(s, a, ApprovalApply(s, a))
  {
    hide Push, Attach, Said, SaysBye;
  }

  lemma DuesCall(s: State, a: Action)
    requires CallEnabled(s, a)
    ensures DuesKept(s, a, CallApply(s, a))
  {
    hide Refuse, Push, Pop, Attach, Retry, Said, SaysBye;
  }

  lemma DuesRunning(s: State, a: Action)
    requires RunningEnabled(s, a)
    ensures DuesKept(s, a, RunningApply(s, a))
  {
    hide Detach, Drain, DrainLink, Pop, AddToRoster, DropFromRoster;
  }

  lemma StepDues(s: State, a: Action)
    requires Enabled(s, a)
    ensures DuesKept(s, a, Apply(s, a))
  {
    hide DuesKept, JoinEnabled, JoinApply, ApprovalEnabled, ApprovalApply, CallEnabled, CallApply, RunningEnabled, RunningApply;
    if JoinEnabled(s, a) { DuesJoin(s, a); }
    else if ApprovalEnabled(s, a) { DuesApproval(s, a); }
    else if CallEnabled(s, a) { DuesCall(s, a); }
    else { DuesRunning(s, a); }
  }

  // ----- where the links of a map lead -----

  ghost predicate LeadsTo(s: State, n: PeerId, p: PeerId, l: LinkId) {
    l < |s.links| && ((s.links[l].caller == n && s.links[l].callee == p) || (s.links[l].callee == n && s.links[l].caller == p))
  }

  ghost predicate MapsLead(s: State) {
    forall n, p | n in s.nodes && p in s.nodes[n].peers :: LeadsTo(s, n, p, s.nodes[n].peers[p])
  }

  lemma EnterLeads(s: State, a: Action, n: PeerId, p: PeerId, l: LinkId)
    requires Safe(s) && Enters(s, a, n, p, l)
    ensures LeadsTo(s, n, p, l)
  {
    hide Safe;
    NearTarget(s, l);
  }

  lemma StepLeads(s: State, a: Action)
    requires Safe(s) && MapsLead(s) && Enabled(s, a)
    ensures MapsLead(Apply(s, a))
  {
    hide Safe, Enabled, Apply, Enters, Exits, Attaches, LinkKept;
    var t := Apply(s, a);
    NodesBefore(s, a);
    forall n, p | n in t.nodes && p in t.nodes[n].peers ensures LeadsTo(t, n, p, t.nodes[n].peers[p]) {
      var l := t.nodes[n].peers[p];
      StepEntry(s, a, n, p, l);
      if Enters(s, a, n, p, l) { EnterLeads(s, a, n, p, l); }
      assert LeadsTo(s, n, p, l);
      StepMsg(s, a, l, Caller, Bye);
      SameLead(s, a, t, n, p, l);
    }
  }

  lemma SameLead(s: State, a: Action, t: State, n: PeerId, p: PeerId, l: LinkId)
    requires LeadsTo(s, n, p, l) && LinkKept(s, a, t, l)
    ensures LeadsTo(t, n, p, l)
  {}

  lemma NodesJoin(s: State, a: Action)
    requires JoinEnabled(s, a)
    ensures JoinApply(s, a).nodes.Keys == s.nodes.Keys
  {
    hide Refuse, Push, Pop, HelloPasses, FirstCalls;
  }

  lemma NodesApproval(s: State, a: Action)
    requires ApprovalEnabled(s, a)
    ensures ApprovalApply(s, a).nodes.Keys == s.nodes.Keys
  {
    hide Push;
  }

  lemma NodesCall(s: State, a: Action)
    requires CallEnabled(s, a)
    ensures CallApply(s, a).nodes.Keys == s.nodes.Keys
  {
    hide Refuse, Push, Retry;
  }

  lemma NodesRunning(s: State, a: Action)
    requires RunningEnabled(s, a)
    ensures RunningApply(s, a).nodes.Keys == s.nodes.Keys
  {
    hide Push, DrainLink;
  }

  lemma NodesBefore(s: State, a: Action)
    requires Enabled(s, a)
    ensures Apply(s, a).nodes.Keys == s.nodes.Keys
  {
    hide JoinEnabled, JoinApply, ApprovalEnabled, ApprovalApply, CallEnabled, CallApply, RunningEnabled, RunningApply;
    if JoinEnabled(s, a) { NodesJoin(s, a); }
    else if ApprovalEnabled(s, a) { NodesApproval(s, a); }
    else if CallEnabled(s, a) { NodesCall(s, a); }
    else { NodesRunning(s, a); }
  }

  lemma {:induction false} RunLeads(path: seq<State>, acts: seq<Action>, i: nat)
    requires IsRun(path, acts) && i < |path|
    ensures Safe(path[i]) && MapsLead(path[i])
  {
    hide Safe, Enabled, Apply;
    RunSafe(path, acts, i);
    if i > 0 {
      RunLeads(path, acts, i - 1);
      StepLeads(path[i - 1], acts[i - 1]);
    }
  }

  /** The host holds only links on which it was called. */
  lemma HostCalled(s: State, p: PeerId)
    requires Safe(s) && MapsLead(s) && s.a.host in s.nodes && p in s.nodes[s.a.host].peers
    ensures var m := s.nodes[s.a.host].peers[p];
            m < |s.links| && s.links[m].callee == s.a.host && s.links[m].caller == p && s.links[m].kind.JoinLink?
  {
    hide NodesOk, JoinsOk, CallsOk, DeskOk, ReqsOk, QueueOk, NearOk, FarOk;
    var m := s.nodes[s.a.host].peers[p];
    assert LeadsTo(s, s.a.host, p, m);
    assert LinkOk(s.a, s.links[m]);
    if s.links[m].kind.JoinLink? { NotJoiner(s, m); }
  }

  lemma NotJoiner(s: State, m: LinkId)
    requires Safe(s) && m < |s.links| && s.links[m].kind.JoinLink?
    ensures s.links[m].caller != s.a.host
  {
    hide LinkOk, NodesOk, ListsOk, DeskOk, ReqsOk, LinksOk;
  }

  // ----- the reader that found its link gone -----

  ghost predicate Parting(s: State, l: LinkId, e: End, p: PeerId) {
    l < |s.links| && PhaseAt(s.links[l], e).Leaving? && PhaseAt(s.links[l], e).peer == p
  }

  ghost predicate PartingKept(s: State, a: Action, t: State, l: LinkId, e: End, p: PeerId) {
    Parting(s, l, e, p) ==> Parting(t, l, e, p) || a == CloseGone(l, e)
  }

  lemma PartingJoin(s: State, a: Action, l: LinkId, e: End, p: PeerId)
    requires Safe(s) && JoinEnabled(s, a)
    ensures PartingKept(s, a, JoinApply(s, a), l, e, p)
  {
    hide Safe, Pop, Push, HelloPasses, Attach, FirstCalls, TakeWelcome;
    if a.Decline? || a.Take? { DeskEntry(s, a.n, a.q); }
    if a.TakeHello? || a.TakeWelcomeMsg? {
      var x := if a.TakeHello? then Callee else Caller;
      PopEnds(s.links[a.l], x);
      PushEnds(Pop(s.links[a.l], x), Rejected);
    }
    if a.SendDecline? { PushEnds(s.links[a.l], Rejected); }
  }

  lemma PopEnds(k: Link, e: End)
    requires Inbox(k, e) != []
    ensures Pop(k, e).near == k.near && Pop(k, e).far == k.far && SameEnds(k, Pop(k, e))
  {}

  lemma PushEnds(k: Link, m: Msg)
    ensures forall e :: Push(k, e, m).near == k.near && Push(k, e, m).far == k.far && SameEnds(k, Push(k, e, m))
  {}

  lemma PartingApproval(s: State, a: Action, l: LinkId, e: End, p: PeerId)
    requires ApprovalEnabled(s, a)
    ensures PartingKept(s, a, ApprovalApply(s, a), l, e, p)
  {
    hide Attach;
  }

  lemma PartingCall(s: State, a: Action, l: LinkId, e: End, p: PeerId)
    requires CallEnabled(s, a)
    ensures PartingKept(s, a, CallApply(s, a), l, e, p)
  {
    hide Attach, Retry;
  }

  lemma PartingRunning(s: State, a: Action, l: LinkId, e: End, p: PeerId)
    requires Safe(s) && RunningEnabled(s, a)
    ensures PartingKept(s, a, RunningApply(s, a), l, e, p)
  {
    hide Detach, Drain, AddToRoster, DropFromRoster, Safe, DoDrain, DoRead, Push;
    match a
    case DrainNode(n, all) => PartingDrain(s, n, all, l, e, p);
    case Read(m, x) => PartingRead(s, m, x, l, e, p);
    case TellLeft(m, x) => PushEnds(s.links[m], PeerLeft(x));
    case SayBye(m, x) => PushEnds(s.links[m], Bye);
    case _ =>
  }

  lemma PartingRead(s: State, m: LinkId, x: End, l: LinkId, e: End, p: PeerId)
    requires CanRead(s, m, x)
    ensures PartingKept(s, Read(m, x), DoRead(s, m, x), l, e, p)
  {
    hide Detach, AddToRoster, DropFromRoster;
  }

  lemma PartingDrain(s: State, n: PeerId, all: bool, l: LinkId, e: End, p: PeerId)
    requires Safe(s) && CanDrain(s, n, all)
    ensures PartingKept(s, DrainNode(n, all), DoDrain(s, n, all), l, e, p)
  {
    hide Drain, LinksOk, ListsOk, EndsOk, JoinsOk, CallsOk, ReqsOk;
    assert NodeOk(s.a, n, s.nodes[n]);
  }

  lemma StepParting(s: State, a: Action, l: LinkId, e: End, p: PeerId)
    requires Safe(s) && Enabled(s, a)
    ensures PartingKept(s, a, Apply(s, a), l, e, p)
  {
    hide Safe, PartingKept, JoinEnabled, JoinApply, ApprovalEnabled, ApprovalApply, CallEnabled, CallApply, RunningEnabled, RunningApply;
    if JoinEnabled(s, a) { PartingJoin(s, a, l, e, p); }
    else if ApprovalEnabled(s, a) { PartingApproval(s, a, l, e, p); }
    else if CallEnabled(s, a) { PartingCall(s, a, l, e, p); }
    else { PartingRunning(s, a, l, e, p); }
  }

  // ----- the host tells everybody who is there -----

  /** The host's reader of end `e` of link `l` lists its peers, to tell them that `p` left. */
  ghost predicate Lists(s: State, a: Action, l: LinkId, e: End, p: PeerId) { a == CloseGone(l, e) && Parting(s, l, e, p) }

  /** After losing `p` the host's reader goes on to list the peers, whatever else happens. */
  lemma {:induction false} LosingLists(path: seq<State>, acts: seq<Action>, i: nat, j: nat, p: PeerId)
    requires IsRun(path, acts) && i < j <= |acts| && Loses(path[i], acts[i], path[i].a.host, p)
    ensures (acts[i].Eof? || acts[i].Read?) &&
            (Parting(path[j], acts[i].l, acts[i].e, p) || exists k :: i < k < j && Lists(path[k], acts[k], acts[i].l, acts[i].e, p))
  {
    hide Enabled, Apply, Safe, Parting, Init;
    var l, e := acts[i].l, acts[i].e;
    if j == i + 1 {
      LosingParts(path[i], acts[i], p);
    } else {
      LosingLists(path, acts, i, j - 1, p);
      RunSafe(path, acts, j - 1);
      StepParting(path[j - 1], acts[j - 1], l, e, p);
      if Parting(path[j - 1], l, e, p) && !Parting(path[j], l, e, p) {
        assert Lists(path[j - 1], acts[j - 1], l, e, p);
      }
    }
  }

  lemma LosingParts(s: State, a: Action, p: PeerId)
    requires Enabled(s, a) && Loses(s, a, s.a.host, p)
    ensures (a.Eof? || a.Read?) && Parting(Apply(s, a), a.l, a.e, p)
  {
    hide Detach;
    if a.Read? { assert Apply(s, a) == DoRead(s, a.l, a.e); } else { assert Apply(s, a) == DoEof(s, a.l, a.e); }
  }

  /** PeerLeft for `p` is owed on link `m`, or on its way, or read, or the link is cut. */
  ghost predicate ToldOf(path: seq<State>, acts: seq<Action>, i: nat, j: nat, m: LinkId, p: PeerId)
    requires i < j < |path| && |path| == |acts| + 1
  {
    || (m, p) in path[j].lefts
    || (m < |path[j].links| && (path[j].links[m].cut || PeerLeft(p) in path[j].links[m].down))
    || exists k :: i < k < j && Takes(path[k], acts[k], m, Caller, PeerLeft(p))
  }

  lemma ListsOwed(s: State, a: Action, l: LinkId, e: End, p: PeerId, q: PeerId)
    requires Enabled(s, a) && Lists(s, a, l, e, p) && NodeAt(s.links[l], e) == s.a.host
    requires s.a.host in s.nodes && s.nodes[s.a.host].role.Host? && q in s.nodes[s.a.host].peers
    ensures (s.nodes[s.a.host].peers[q], p) in Apply(s, a).lefts
  {
    assert Apply(s, a) == DoCloseGone(s, l, e);
    assert s.nodes[s.a.host].peers[q] in s.nodes[s.a.host].peers.Values;
  }

  lemma SaidKept(s: State, t: State, m: LinkId, p: PeerId)
    requires m < |s.links| && s.links[m].callee == s.a.host && Said(s, t, m, EndOf(s.links[m], s.a.host), PeerLeft(p))
    ensures s.links[m].cut || PeerLeft(p) in t.links[m].down
  {
    if !s.links[m].cut { assert t.links[m].down[|t.links[m].down| - 1] == PeerLeft(p); }
  }

  /** When the host's reader lists the peers, each of them has from then on been told, is being told, or
      its link is cut. */
  lemma {:induction false} EverybodyTold(path: seq<State>, acts: seq<Action>, i: nat, j: nat, l: LinkId, e: End, p: PeerId, q: PeerId)
    requires IsRun(path, acts) && i < j <= |acts| && Lists(path[i], acts[i], l, e, p)
    requires var s := path[i]; NodeAt(s.links[l], e) == s.a.host && s.a.host in s.nodes && q in s.nodes[s.a.host].peers
    ensures ToldOf(path, acts, i, j, path[i].nodes[path[i].a.host].peers[q], p)
    ensures var m := path[i].nodes[path[i].a.host].peers[q];
            path[j].a.host == path[i].a.host && m < |path[j].links| && path[j].links[m].callee == path[j].a.host
  {
    hide Enabled, Apply, Safe, Parting, Init, Said, EndOf, Lists, LinkKept;
    var s := path[i];
    var m := s.nodes[s.a.host].peers[q];
    if j == i + 1 {
      RunLeads(path, acts, i);
      HostCalled(s, q);
      HostRole(s);
      ListsOwed(s, acts[i], l, e, p, q);
      StepDues(s, acts[i]);
      StepMsg(s, acts[i], m, Caller, PeerLeft(p));
      SameCallee(s, acts[i], path[j], m);
    } else {
      EverybodyTold(path, acts, i, j - 1, l, e, p, q);
      var u, a := path[j - 1], acts[j - 1];
      StepDues(u, a);
      StepMsg(u, a, m, Caller, PeerLeft(p));
      SameCallee(u, a, path[j], m);
      if (m, p) in u.lefts && (m, p) !in path[j].lefts { SaidKept(u, path[j], m, p); }
      if k :| i < k < j - 1 && Takes(path[k], acts[k], m, Caller, PeerLeft(p)) {
        assert i < k < j && Takes(path[k], acts[k], m, Caller, PeerLeft(p));
      }
      if Takes(u, a, m, Caller, PeerLeft(p)) { assert i < j - 1 < j; }
    }
  }

  lemma SameCallee(s: State, a: Action, t: State, m: LinkId)
    requires m < |s.links| && LinkKept(s, a, t, m)
    ensures m < |t.links| && t.links[m].callee == s.links[m].callee && (s.links[m].cut ==> t.links[m].cut)
  {}

  lemma HostRole(s: State)
    requires Safe(s)
    ensures s.a.host in s.nodes && s.nodes[s.a.host].role.Host?
  {
    hide LinksOk, ListsOk, EndsOk, JoinsOk, CallsOk, DeskOk, ReqsOk;
    assert NodeOk(s.a, s.a.host, s.nodes[s.a.host]);
  }

  /** Whoever has dropped an id does not have it on its roster until something puts it there again: after
      reading that it left, and the host itself after losing it. */
  lemma {:induction false} StaysForgotten(path: seq<State>, acts: seq<Action>, k: nat, j: nat, n: PeerId, p: PeerId)
    requires IsRun(path, acts) && k < j <= |acts| && n in path[0].nodes
    requires Drops(path[k], acts[k], n, p) && forall x | k < x < j :: !Adds(path[x], acts[x], n, p)
    ensures n in path[j].nodes && p !in path[j].nodes[n].roster
  {
    hide Enabled, Apply, Adds, Drops, Init;
    RosterIff(path, acts, k, n, p);
    RosterIff(path, acts, j, n, p);
    DropsOnly(path[k], acts[k], n, p);
    StepRoster(path[k], acts[k], n, p);
  }

  lemma DropsOnly(s: State, a: Action, n: PeerId, p: PeerId)
    requires Drops(s, a, n, p)
    ensures !Adds(s, a, n, p)
  {}

  // ----- what `leave` says -----

  ghost predicate ByeSaid(path: seq<State>, acts: seq<Action>, i: nat, j: nat, m: LinkId, e: End)
    requires i < j < |path| && |path| == |acts| + 1
  {
    exists k :: i < k < j && SaysBye(path[k], acts[k], path[k + 1], m, e)
  }

  /** After `leave` every link the node held gets Bye and is closed, or is still waiting for that, and the
      links of unanswered requests are closed. */
  lemma {:induction false} LeaveSaysBye(path: seq<State>, acts: seq<Action>, i: nat, j: nat, n: PeerId, p: PeerId)
    requires IsRun(path, acts) && i < j <= |acts| && acts[i] == DrainNode(n, true) && n in path[i].nodes && p in path[i].nodes[n].peers
    ensures var m := path[i].nodes[n].peers[p];
            m < |path[i].links| &&
            var e := if path[i].links[m].callee == n then Callee else Caller;
            (m, e) in path[j].byes || ByeSaid(path, acts, i, j, m, e)
  {
    hide Enabled, Apply, Safe, Init, SaysBye;
    RunLeads(path, acts, i);
    var m := path[i].nodes[n].peers[p];
    assert LeadsTo(path[i], n, p, m);
    var e := if path[i].links[m].callee == n then Callee else Caller;
    if j == i + 1 {
      DrainOwes(path[i], n, p);
    } else {
      LeaveSaysBye(path, acts, i, j - 1, n, p);
      StepDues(path[j - 1], acts[j - 1]);
      if k :| i < k < j - 1 && SaysBye(path[k], acts[k], path[k + 1], m, e) { assert i < k < j; }
      if (m, e) in path[j - 1].byes && (m, e) !in path[j].byes {
        assert SaysBye(path[j - 1], acts[j - 1], path[j], m, e);
      }
    }
  }

  lemma DrainOwes(s: State, n: PeerId, p: PeerId)
    requires Enabled(s, DrainNode(n, true)) && n in s.nodes && p in s.nodes[n].peers && s.nodes[n].peers[p] < |s.links|
    ensures var m := s.nodes[n].peers[p];
            (m, if s.links[m].callee == n then Callee else Caller) in Apply(s, DrainNode(n, true)).byes
  {
    ApplyDrain(s, n, true);
    hide Enabled, Apply;
    assert s.nodes[n].peers[p] in s.nodes[n].peers.Values;
  }

  /** The drain of `leave` closes the links of the requests nobody answered. */
  lemma DrainRefuses(path: seq<State>, acts: seq<Action>, i: nat, n: PeerId, req: Req)
    requires IsRun(path, acts) && i < |acts| && acts[i] == DrainNode(n, true) && n in path[i].nodes && req in path[i].nodes[n].pending
    ensures var l := path[i].nodes[n].pending[req].link;
            l < |path[i + 1].links| && path[i + 1].links[l].cut && path[i + 1].links[l].far.Ended?
  {
    RunSafe(path, acts, i);
    PendingClosed(path[i], n, req);
  }

  lemma ParkedLink(s: State, n: PeerId, req: Req)
    requires Safe(s) && n in s.nodes && req in s.nodes[n].pending
    ensures s.nodes[n].pending[req].link < |s.links|
  {
    hide ListsOk, LinksOk, EndsOk, JoinsOk, CallsOk, ReqsOk;
    assert NodeOk(s.a, n, s.nodes[n]);
  }

  lemma ApplyDrain(s: State, n: PeerId, all: bool)
    requires Enabled(s, DrainNode(n, all))
    ensures CanDrain(s, n, all) && Apply(s, DrainNode(n, all)) == DoDrain(s, n, all)
  {
    hide DoDrain;
  }

  lemma PendingClosed(s: State, n: PeerId, req: Req)
    requires Safe(s) && Enabled(s, DrainNode(n, true)) && n in s.nodes && req in s.nodes[n].pending
    ensures var l, t := s.nodes[n].pending[req].link, Apply(s, DrainNode(n, true));
            l < |t.links| && t.links[l].cut && t.links[l].far.Ended?
  {
    ParkedLink(s, n, req);
    ApplyDrain(s, n, true);
    hide Safe, Drain, Enabled, Apply;
  }
}
