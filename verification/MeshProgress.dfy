/** A calm room left to itself settles: until it has, some thread can take a step, and no run of
    such steps is longer than a bound computed from its first state. */
module MeshProgress {
  import opened MeshNode
  import opened MeshModel
  import opened MeshSafety
  import opened MeshWeave
  import opened MeshTheorems
  import opened MeshFull

  /** A step of a node's own threads: nobody new joins, and the operator decides nothing. */
  ghost predicate OwnStep(a: Action) { Calm(a) && !a.JoinStart? && !a.Decline? && !a.Take? }

  ghost predicate CanMove(s: State) { exists a :: OwnStep(a) && Enabled(s, a) }

  lemma Moves(s: State, a: Action)
    requires OwnStep(a) && Enabled(s, a)
    ensures CanMove(s)
  {
  }

  lemma JoinMoves(s: State, n: PeerId)
    requires Safe(s) && Weave(s) && n in s.joining
    ensures CanMove(s)
  {
    hide Safe, LinksCalm, EntriesOk, BackOk, PairsOk, TodoOk, StagesOk, CanMove;
    HostHere(s);
    Moves(s, JoinDial(n, s.a.host));
  }

  lemma DrainMoves(s: State, d: (PeerId, bool))
    requires Weave(s) && d in s.drains
    ensures CanMove(s)
  {
    hide LinksCalm, EntriesOk, BackOk, PairsOk, TodoOk, StagesOk, CanMove;
    Moves(s, DrainNode(d.0, d.1));
  }

  lemma CallMoves(s: State, c: Call)
    requires Safe(s) && Weave(s) && c in s.dials
    ensures CanMove(s)
  {
    hide Safe, Weave, CanMove;
    CallerRuns(s, c);
    Moves(s, Dial(c));
  }

  lemma AnnouncingMoves(s: State, l: LinkId)
    requires Weave(s) && OnLink(s, l) && s.links[l].far.Announcing?
    ensures CanMove(s)
  {
    hide Safe, LinksCalm, EntriesOk, BackOk, PairsOk, StagesOk, CanMove, NodesCalm, TasksCalm;
    if m :| m in s.links[l].far.todo {
      assert TodoEntry(s.links, s.links[l].far.list, m);
      Moves(s, Announce(l, m));
    } else {
      Moves(s, Enroll(l));
    }
  }

  /** A member whose join link has something queued reads it. */
  lemma MemberMoves(s: State, m: LinkId)
    requires Safe(s) && Weave(s) && OnLink(s, m) && s.links[m].kind.JoinLink? && s.links[m].far.Reading? && s.links[m].down != []
    ensures CanMove(s)
  {
    hide Safe, Weave, CanMove, NodesCalm, QueueOk, EntryOk, ListsOk, StageOk;
    WeaveAt(s, m);
    if s.links[m].near.AwaitWelcome? { Moves(s, TakeWelcomeMsg(m)); }
    else if s.links[m].near.HostAttach? { Moves(s, AttachHost(m)); }
    else { Moves(s, Read(m, Caller)); }
  }

  /** The member's own thread is about to read the announcement a held call waits for. */
  lemma HeldMoves(s: State, l: LinkId)
    requires Safe(s) && Weave(s) && OnLink(s, l) && s.links[l].far.Held?
    ensures CanMove(s)
  {
    hide Safe, EntriesOk, BackOk, PairsOk, StagesOk, CanMove, NodesCalm, TasksCalm, LinksCalm, QueueOk, EntryOk, LinkCalm, StageOk;
    WeaveAt(s, l);
    CallAnnounced(s, l);
    if s.links[l].far.peer in s.nodes[s.links[l].callee].roster {
      Moves(s, SeeRoster(l));
    } else {
      AllLinksOk(s, s.h.joinLink[s.links[l].callee]);
      MemberMoves(s, s.h.joinLink[s.links[l].callee]);
    }
  }

  lemma FreshMoves(s: State, l: LinkId)
    requires Safe(s) && Weave(s) && OnLink(s, l) && s.links[l].far.Fresh?
    ensures CanMove(s)
  {
    hide Safe, Weave, CanMove, NodesCalm, QueueOk, ListsOk, EntryOk;
    WeaveAt(s, l);
    if s.links[l].kind.JoinLink? { Moves(s, TakeHello(l, false)); } else { Moves(s, TakeMeshHello(l)); }
  }

  /** A thread that is past its first receive has nothing to wait for. */
  lemma ReadyMoves(s: State, l: LinkId)
    requires OnLink(s, l)
    requires var far := s.links[l].far;
      far.Checked? || far.Declining? || far.Taken? || far.Greeting? || far.Admitting? || far.Seen? || far.Acking? || far.CallerAttach?
    ensures CanMove(s)
  {
    hide CanMove;
    match s.links[l].far
    case Checked(_) => Moves(s, Park(l));
    case Declining(_) => Moves(s, SendDecline(l));
    case Taken(_, _) => Moves(s, Snapshot(l));
    case Greeting(_, _, _) => Moves(s, Greet(l, true));
    case Admitting(_) => Moves(s, Admit(l));
    case Seen(_) => Moves(s, CheckLinked(l));
    case Acking(_) => Moves(s, Ack(l, true));
    case CallerAttach(_) => Moves(s, AttachCaller(l));
  }

  lemma FarMoves(s: State, l: LinkId)
    requires Safe(s) && Weave(s) && OnLink(s, l)
    requires !(s.links[l].far.Reading? || s.links[l].far.Ended? || s.links[l].far.Parked?)
    ensures CanMove(s)
  {
    hide Safe, Weave, CanMove, NodesCalm, QueueOk, ListsOk, EntryOk;
    WeaveAt(s, l);
    if s.links[l].far.Fresh? { FreshMoves(s, l); }
    else if s.links[l].far.Announcing? { AnnouncingMoves(s, l); }
    else if s.links[l].far.Held? { HeldMoves(s, l); }
    else { ReadyMoves(s, l); }
  }

  lemma RefusedMoves(s: State, l: LinkId)
    requires Safe(s) && Weave(s) && OnLink(s, l) && s.links[l].near.AwaitWelcome? && s.links[l].far.Ended?
    ensures CanMove(s)
  {
    hide Safe, Weave, CanMove, NodesCalm, EntryOk;
    WeaveAt(s, l);
    var k := s.links[l];
    assert k.down != [] ==> MsgOk(s.a, k.kind, k.caller, k.callee, false, k.down[0]);
    Moves(s, JoinRefused(l));
  }

  lemma NearMoves(s: State, l: LinkId)
    requires Safe(s) && Weave(s) && OnLink(s, l) && !SettledLink(s.links[l])
    requires s.links[l].far.Reading? || s.links[l].far.Ended? || s.links[l].far.Parked?
    ensures CanMove(s)
  {
    hide Safe, Weave, CanMove, NodesCalm, EntryOk, QueueOk, ListsOk;
    WeaveAt(s, l);
    var k := s.links[l];
    if k.near.AwaitWelcome? {
      if k.far.Ended? { RefusedMoves(s, l); } else { Moves(s, TakeWelcomeMsg(l)); }
    } else if k.near.HostAttach? { Moves(s, AttachHost(l)); }
    else if k.near.AwaitAck? { Moves(s, TakeAck(l)); }
    else { Moves(s, Read(l, Caller)); }
  }

  /** No calm room is stuck: a held call, in particular, always waits for an announcement that
      some thread is about to deliver. */
  lemma NeverStuck(path: seq<State>, acts: seq<Action>, i: nat)
    requires CalmRun(path, acts) && i <= |acts| && !Settled(path[i])
    ensures CanMove(path[i])
  {
    hide Enabled, Apply, Safe, Weave, SettledLink, CanMove;
    RunWeave(path, acts, i);
    var s := path[i];
    if n :| n in s.joining { JoinMoves(s, n); }
    else if c :| c in s.dials { CallMoves(s, c); }
    else if d :| d in s.drains { DrainMoves(s, d); }
    else {
      var l :| 0 <= l < |s.links| && !SettledLink(s.links[l]);
      AllLinksOk(s, l);
      if s.links[l].far.Reading? || s.links[l].far.Ended? || s.links[l].far.Parked? { NearMoves(s, l); } else { FarMoves(s, l); }
    }
  }

  // ----- the bound -----

  function NearWeight(k: Phase, members: nat): nat {
    match k
    case AwaitWelcome => 10 * members + 4
    case HostAttach(_, list) => 10 * |list| + 3
    case AwaitAck(_, _) => 1
    case _ => 0
  }

  function FarWeight(k: Phase, members: nat): nat {
    match k
    case Fresh => 6
    case Checked(_) => 5
    case Declining(_) => 3
    case Taken(_, _) => 2 * members + 8
    case Announcing(_, _, _, todo) => 2 * |todo| + 7
    case Greeting(_, _, _) => 6
    case Admitting(_) => 4
    case Held(_) => 5
    case Seen(_) => 4
    case Acking(_) => 3
    case CallerAttach(_) => 1
    case _ => 0
  }

  function LinkWeight(k: Link, members: nat): nat {
    |k.up| + |k.down| + NearWeight(k.near, members) + FarWeight(k.far, members)
  }

  function LinksWeight(links: seq<Link>, members: nat): nat {
    if links == [] then 0 else LinkWeight(links[|links| - 1], members) + LinksWeight(links[..|links| - 1], members)
  }

  /** An upper bound on the steps a room can still take on its own. */
  function Work(s: State): nat {
    var members := |s.a.accepted|;
    (10 * members + 12) * |s.joining| + 9 * |s.dials| + |s.drains| + LinksWeight(s.links, members)
  }

  lemma {:induction false} PutWeight(links: seq<Link>, l: nat, k: Link, members: nat)
    requires l < |links|
    ensures LinksWeight(links[l := k], members) == LinksWeight(links, members) - LinkWeight(links[l], members) + LinkWeight(k, members)
    ensures LinkWeight(links[l], members) <= LinksWeight(links, members)
  {
    var front := links[..|links| - 1];
    if l < |links| - 1 {
      assert links[l := k][..|links| - 1] == front[l := k];
      PutWeight(front, l, k, members);
    } else {
      assert links[l := k][..|links| - 1] == front;
    }
  }

  lemma AppendWeight(links: seq<Link>, k: Link, members: nat)
    ensures LinksWeight(links + [k], members) == LinksWeight(links, members) + LinkWeight(k, members)
  {
    assert (links + [k])[..|links|] == links;
  }

  /** Only link `l` changes, and it gets lighter. */
  lemma LinkWork(s: State, t: State, l: LinkId)
    requires l < |s.links| && |t.links| == |s.links| && t.links == s.links[l := t.links[l]]
    requires t.a.accepted == s.a.accepted && t.joining == s.joining && t.dials == s.dials && t.drains == s.drains
    requires LinkWeight(t.links[l], |s.a.accepted|) < LinkWeight(s.links[l], |s.a.accepted|)
    ensures Work(t) < Work(s)
  {
    hide LinkWeight;
    PutWeight(s.links, l, t.links[l], |s.a.accepted|);
  }

  /** The host's steps on one join link. */
  lemma HostWork(s: State, a: Action)
    requires JoinEnabled(s, a) && (a.TakeHello? || a.Park? || a.SendDecline?)
    ensures Work(JoinApply(s, a)) < Work(s)
  {
    hide Work;
    LinkWork(s, JoinApply(s, a), a.l);
  }

  lemma WelcomeWork(s: State, a: Action)
    requires ApprovalEnabled(s, a) && (a.Enroll? || a.Greet? || a.Admit?)
    ensures Work(ApprovalApply(s, a)) < Work(s)
  {
    hide Work;
    LinkWork(s, ApprovalApply(s, a), a.l);
  }

  /** The steps on one mesh link. */
  lemma HoldWork(s: State, a: Action)
    requires CallEnabled(s, a) && (a.TakeMeshHello? || a.SeeRoster? || a.CheckLinked?)
    ensures Work(CallApply(s, a)) < Work(s)
  {
    hide Work;
    LinkWork(s, CallApply(s, a), a.l);
  }

  lemma AckWork(s: State, l: LinkId, ok: bool)
    requires CanAck(s, l, ok)
    ensures Work(DoAck(s, l, ok)) < Work(s)
  {
    hide Work;
    LinkWork(s, DoAck(s, l, ok), l);
  }

  lemma AttachWork(s: State, l: LinkId)
    requires CanAttachCaller(s, l)
    ensures Work(DoAttachCaller(s, l)) < Work(s)
  {
    hide Work;
    LinkWork(s, DoAttachCaller(s, l), l);
  }

  lemma TakeAckWork(s: State, l: LinkId)
    requires CanTakeAck(s, l)
    ensures Work(DoTakeAck(s, l)) < Work(s)
  {
    hide Work;
    LinkWork(s, DoTakeAck(s, l), l);
  }

  lemma SubsetSize<T>(x: set<T>, y: set<T>)
    requires x <= y
    ensures |x| <= |y|
  {
    assert y == x + (y - x);
  }

  lemma {:induction false} ValuesSize(m: map<PeerId, LinkId>)
    ensures |m.Values| <= |m.Keys|
  {
    if p :| p in m {
      var n := m - {p};
      ValuesSize(n);
      assert m.Keys == n.Keys + {p};
      assert m.Values <= n.Values + {m[p]};
      assert |n.Values + {m[p]}| <= |n.Values| + 1;
      var extra := n.Values + {m[p]} - m.Values;
      assert n.Values + {m[p]} == m.Values + extra;
    } else {
      assert m.Values == {};
    }
  }

  /** A list handed out is no longer than the set of accepted members. */
  lemma ListSize(s: State, p: PeerId)
    requires Safe(s) && p in s.a.lists
    ensures |s.a.lists[p]| <= |s.a.accepted|
  {
    hide NodesOk, LinksOk, EndsOk, JoinsOk, CallsOk, DeskOk, ReqsOk;
    SubsetSize(s.a.lists[p], s.a.accepted);
  }

  lemma SnapshotWork(s: State, l: LinkId)
    requires Safe(s) && CanSnapshot(s, l)
    ensures Work(DoSnapshot(s, l)) < Work(s)
  {
    hide LinksOk, EndsOk, JoinsOk, CallsOk, DeskOk, ReqsOk, Work;
    SnapshotAtHost(s, l);
    var peers := s.nodes[s.a.host].peers;
    assert NodeOk(s.a, s.a.host, s.nodes[s.a.host]);
    ValuesSize(peers);
    SubsetSize(peers.Keys, s.a.accepted);
    LinkWork(s, DoSnapshot(s, l), l);
  }

  lemma AnnounceWork(s: State, l: LinkId, m: LinkId)
    requires CanAnnounce(s, l, m)
    ensures Work(DoAnnounce(s, l, m)) < Work(s)
  {
    hide LinkWeight, Push;
    var k, n := s.links[l], |s.a.accepted|;
    var j := k.(far := k.far.(todo := k.far.todo - {m}));
    var t := PutLink(s, l, j);
    var sent := Push(t.links[m], EndOf(t.links[m], k.callee), PeerJoined(k.far.peer));
    FewerWeight(k, m, n);
    PushWeight(t.links[m], EndOf(t.links[m], k.callee), PeerJoined(k.far.peer), n);
    PutWeight(s.links, l, j, n);
    PutWeight(t.links, m, sent, n);
  }

  lemma FewerWeight(k: Link, m: LinkId, members: nat)
    requires k.far.Announcing? && m in k.far.todo
    ensures LinkWeight(k.(far := k.far.(todo := k.far.todo - {m})), members) == LinkWeight(k, members) - 2
  {
  }

  lemma PushWeight(k: Link, e: End, m: Msg, members: nat)
    ensures LinkWeight(Push(k, e, m), members) <= LinkWeight(k, members) + 1
  {
  }

  lemma TakeWelcomeWork(s: State, l: LinkId)
    requires Safe(s) && CanTakeWelcome(s, l)
    ensures Work(DoTakeWelcome(s, l)) < Work(s)
  {
    hide Safe, Work;
    AllLinksOk(s, l);
    var k := s.links[l];
    assert MsgOk(s.a, k.kind, k.caller, k.callee, false, k.down[0]);
    ListSize(s, k.caller);
    LinkWork(s, DoTakeWelcome(s, l), l);
  }

  lemma AttachHostWork(s: State, l: LinkId)
    requires CanAttachHost(s, l)
    ensures Work(DoAttachHost(s, l)) < Work(s)
  {
    var k := s.links[l];
    var t := DoAttachHost(s, l);
    PutWeight(s.links, l, t.links[l], |s.a.accepted|);
    hide LinksWeight, Attach;
    CallsSize(k.caller, k.near.list);
    var calls := set p | p in k.near.list :: Call(k.caller, p, 0);
    UnionSize(s.dials, calls);
  }

  lemma UnionSize<T>(x: set<T>, y: set<T>)
    ensures |x + y| <= |x| + |y|
  {
    assert x + y == x + (y - x);
    SubsetSize(y - x, y);
  }

  lemma {:induction false} CallsSize(from: PeerId, list: set<PeerId>)
    ensures |set p | p in list :: Call(from, p, 0)| <= |list|
  {
    if q :| q in list {
      var calls := set p | p in list :: Call(from, p, 0);
      var rest := set p | p in list - {q} :: Call(from, p, 0);
      CallsSize(from, list - {q});
      assert calls == rest + {Call(from, q, 0)};
    }
  }

  lemma JoinDialWork(s: State, n: PeerId, to: PeerId)
    requires CanJoinDial(s, n, to)
    ensures Work(DoJoinDial(s, n, to)) < Work(s)
  {
    var members := |s.a.accepted|;
    assert (10 * members + 12) * |s.joining| == (10 * members + 12) * (|s.joining| - 1) + 10 * members + 12;
    AppendWeight(s.links, DoJoinDial(s, n, to).links[|s.links|], |s.a.accepted|);
  }

  lemma JoinFailWork(s: State, n: PeerId)
    requires CanJoinFail(s, n)
    ensures Work(DoJoinFail(s, n)) < Work(s)
  {
    hide LinksWeight;
    var members := |s.a.accepted|;
    assert |s.joining - {n}| == |s.joining| - 1;
    assert (10 * members + 12) * |s.joining| == (10 * members + 12) * (|s.joining| - 1) + 10 * members + 12;
  }

  lemma DialWork(s: State, c: Call)
    requires CanDial(s, c)
    ensures Work(DoDial(s, c)) < Work(s)
  {
    AppendWeight(s.links, DoDial(s, c).links[|s.links|], |s.a.accepted|);
  }

  lemma JoinRefusedWork(s: State, l: LinkId)
    requires CanJoinRefused(s, l)
    ensures Work(DoJoinRefused(s, l)) < Work(s)
  {
    PutWeight(s.links, l, DoJoinRefused(s, l).links[l], |s.a.accepted|);
  }

  lemma ReadWork(s: State, l: LinkId, e: End)
    requires Safe(s) && Weave(s) && CanRead(s, l, e)
    ensures Work(DoRead(s, l, e)) < Work(s)
  {
    hide Safe, Weave, Work;
    OnlyAnnouncements(s, l, e);
    LinkWork(s, DoRead(s, l, e), l);
  }

  lemma DrainWork(s: State, n: PeerId, all: bool)
    requires Safe(s) && Weave(s) && CanDrain(s, n, all)
    ensures Work(DoDrain(s, n, all)) < Work(s)
  {
    hide LinksOk, EndsOk, JoinsOk, CallsOk, DeskOk, ReqsOk, ListsOk, LinksCalm, JoinIndex, MeshIndex, StagesOk, EntriesOk, BackOk,
      TodoOk, PairsOk, NoFarewell;
    assert NodeOk(s.a, n, s.nodes[n]);
    assert DoDrain(s, n, all).links == s.links;
  }

  lemma JoinWork(s: State, a: Action)
    requires Safe(s) && JoinEnabled(s, a) && OwnStep(a)
    ensures Work(JoinApply(s, a)) < Work(s)
  {
    hide Safe, Work;
    match a
    case JoinDial(n, to) => JoinDialWork(s, n, to);
    case JoinFail(n) => JoinFailWork(s, n);
    case TakeWelcomeMsg(l) => TakeWelcomeWork(s, l);
    case JoinRefused(l) => JoinRefusedWork(s, l);
    case AttachHost(l) => AttachHostWork(s, l);
    case _ => HostWork(s, a);
  }

  lemma ApprovalWork(s: State, a: Action)
    requires Safe(s) && ApprovalEnabled(s, a)
    ensures Work(ApprovalApply(s, a)) < Work(s)
  {
    hide Safe, Work;
    match a
    case Snapshot(l) => SnapshotWork(s, l);
    case Announce(l, m) => AnnounceWork(s, l, m);
    case _ => WelcomeWork(s, a);
  }

  lemma CallWork(s: State, a: Action)
    requires CallEnabled(s, a) && OwnStep(a) && !Failure(a)
    ensures Work(CallApply(s, a)) < Work(s)
  {
    hide Work;
    match a
    case Dial(c) => DialWork(s, c);
    case Ack(l, ok) => AckWork(s, l, ok);
    case AttachCaller(l) => AttachWork(s, l);
    case TakeAck(l) => TakeAckWork(s, l);
    case _ => HoldWork(s, a);
  }

  lemma RunningWork(s: State, a: Action)
    requires Safe(s) && Weave(s) && RunningEnabled(s, a) && OwnStep(a) && !Failure(a)
    ensures Work(RunningApply(s, a)) < Work(s)
  {
    hide Safe, Weave, Work;
    match a
    case Read(l, e) => ReadWork(s, l, e);
    case DrainNode(n, all) => DrainWork(s, n, all);
  }

  /** Every step a room takes on its own uses up some of its work. */
  lemma StepWork(s: State, a: Action)
    requires Safe(s) && Weave(s) && Enabled(s, a) && OwnStep(a)
    ensures Work(Apply(s, a)) < Work(s)
  {
    hide Safe, Weave, Work, JoinEnabled, JoinApply, ApprovalEnabled, ApprovalApply, CallEnabled, CallApply, RunningEnabled, RunningApply;
    if Failure(a) { NeverHappens(s, a); }
    if JoinEnabled(s, a) { JoinWork(s, a); }
    else if ApprovalEnabled(s, a) { ApprovalWork(s, a); }
    else if CallEnabled(s, a) { CallWork(s, a); }
    else { RunningWork(s, a); }
  }

  /** Once nobody new joins and the operator is idle, a calm room takes at most `Work` more steps. */
  lemma {:induction false} SettlesSoon(path: seq<State>, acts: seq<Action>, i: nat, j: nat)
    requires CalmRun(path, acts) && i <= j <= |acts|
    requires forall k | i <= k < j :: OwnStep(acts[k])
    ensures Work(path[j]) + (j - i) <= Work(path[i])
  {
    hide Enabled, Apply, Safe, Weave, Work;
    if i < j {
      SettlesSoon(path, acts, i, j - 1);
      RunWeave(path, acts, j - 1);
      StepWork(path[j - 1], acts[j - 1]);
    }
  }

  /** Every calm run goes on, by steps of the nodes' own threads, to a settled room. */
  lemma {:induction false} RoomSettles(path: seq<State>, acts: seq<Action>) returns (path': seq<State>, acts': seq<Action>)
    requires CalmRun(path, acts)
    ensures CalmRun(path', acts') && path <= path' && acts <= acts' && Settled(path'[|acts'|])
    ensures forall k | |acts| <= k < |acts'| :: OwnStep(acts'[k])
    decreases Work(path[|acts|])
  {
    hide Enabled, Apply, Safe, Weave, Work, Settled;
    var s := path[|acts|];
    if Settled(s) {
      path', acts' := path, acts;
    } else {
      NeverStuck(path, acts, |acts|);
      var a :| OwnStep(a) && Enabled(s, a);
      RunWeave(path, acts, |acts|);
      StepWork(s, a);
      Extend(path, acts, a);
      path', acts' := RoomSettles(path + [Apply(s, a)], acts + [a]);
    }
  }

  lemma Extend(path: seq<State>, acts: seq<Action>, a: Action)
    requires CalmRun(path, acts) && Calm(a) && Enabled(path[|acts|], a)
    ensures CalmRun(path + [Apply(path[|acts|], a)], acts + [a])
  {
    hide Enabled, Apply;
  }

  // ----- overlapping approvals -----

  function Blank(role: Role): NodeState { NodeState(role, role.Host?, 7, map[], {}, map[], 1) }

  function TwoJoiners(): State {
    State(Approvals(0, {}, map[], map[]), History([], map[], map[]),
          map[0 := Blank(Host), 1 := Blank(Idle), 2 := Blank(Idle)], [], {}, {}, {}, {}, {})
  }

  lemma RunLength(path: seq<State>, acts: seq<Action>)
    requires CalmRun(path, acts)
    ensures |path| == |acts| + 1
  {
    hide Enabled, Apply, Init;
  }

  /** Takes one more calm step. */
  lemma Then(path: seq<State>, acts: seq<Action>, a: Action) returns (path': seq<State>, acts': seq<Action>)
    requires CalmRun(path, acts) && Calm(a) && Enabled(path[|acts|], a)
    ensures CalmRun(path', acts') && path' == path + [Apply(path[|acts|], a)] && acts' == acts + [a]
    ensures |acts'| == |acts| + 1 && |path'| == |acts'| + 1 && path'[|acts'|] == Apply(path[|acts|], a)
  {
    hide Enabled, Apply;
    Extend(path, acts, a);
    path', acts' := path + [Apply(path[|acts|], a)], acts + [a];
  }

  /** The host is up, nobody is half-way into `join`, and `n` has not joined anything yet. */
  ghost predicate ReadyFor(s: State, n: PeerId) {
    && s.a.host == 0 && n != 0 && n in s.nodes && s.nodes[n].role.Idle? && 0 in s.nodes
    && s.nodes[0].role.Host? && s.nodes[0].running && n !in s.nodes[0].roster && s.joining == {}
  }

  /** Joiner `n` asked for admission and the operator accepted; the list has not been read. */
  ghost predicate Accepting(s: State, t: State, n: PeerId) {
    && |t.links| == |s.links| + 1 && t.links[..|s.links|] == s.links && t.links[|s.links|].far.Taken?
    && t.links[|s.links|].caller == n && t.links[|s.links|].callee == 0
    && t.a.host == 0 && t.nodes.Keys == s.nodes.Keys && t.joining == {}
    && (forall m | m in s.nodes && m != n && m != 0 :: t.nodes[m] == s.nodes[m])
    && 0 in t.nodes && 0 in s.nodes && QuietNode(s.nodes[0], t.nodes[0]) && t.nodes[0].roster == s.nodes[0].roster
  }

  lemma AskSteps(s: State, n: PeerId) returns (s1: State, s2: State)
    requires ReadyFor(s, n)
    ensures var a := JoinStart(n, s.nodes[0].room); Enabled(s, a) && s1 == Apply(s, a)
    ensures var a := JoinDial(n, 0); Enabled(s1, a) && s2 == Apply(s1, a)
    ensures s2.links == s.links + [Link(JoinLink, n, 0, [Hello(s.nodes[0].room, n)], [], false, AwaitWelcome, Fresh)]
    ensures s2.nodes == s.nodes[n := s2.nodes[n]] && n in s2.nodes && s2.joining == {} && s2.a == s.a
  {
    s1 := DoJoinStart(s, n, s.nodes[0].room);
    s2 := DoJoinDial(s1, n, 0);
  }

  lemma AcceptSteps(s: State, n: PeerId, l: LinkId) returns (s1: State, s2: State, s3: State)
    requires 0 in s.nodes && l < |s.links|
    requires s.links[l] == Link(JoinLink, n, 0, [Hello(s.nodes[0].room, n)], [], false, AwaitWelcome, Fresh)
    requires n in s.nodes && n != 0 && s.nodes[0].role.Host? && n !in s.nodes[0].roster
    ensures var a := TakeHello(l, false); Enabled(s, a) && s1 == Apply(s, a)
    ensures var a := Park(l); Enabled(s1, a) && s2 == Apply(s1, a)
    ensures var a := Take(0, s.nodes[0].nextReq); Enabled(s2, a) && s3 == Apply(s2, a)
    ensures s3.links == s.links[l := s3.links[l]] && l < |s3.links|
    ensures s3.links[l].far.Taken? && s3.links[l].caller == n && s3.links[l].callee == 0
    ensures s3.nodes == s.nodes[0 := s3.nodes[0]] && 0 in s3.nodes && QuietNode(s.nodes[0], s3.nodes[0])
    ensures s3.nodes[0].roster == s.nodes[0].roster && s3.joining == s.joining && s3.a.host == s.a.host
  {
    s1 := DoTakeHello(s, l, false);
    s2 := DoPark(s1, l);
    s3 := DoTake(s2, 0, s.nodes[0].nextReq);
  }

  lemma AskAndAccept(path: seq<State>, acts: seq<Action>, n: PeerId) returns (path': seq<State>, acts': seq<Action>)
    requires CalmRun(path, acts) && ReadyFor(path[|acts|], n)
    ensures CalmRun(path', acts') && |acts'| > |acts| && Accepting(path[|acts|], path'[|acts'|], n)
  {
    hide CalmRun, Enabled, Apply;
    RunLength(path, acts);
    var s := path[|acts|];
    var l := |s.links|;
    var s1, s2 := AskSteps(s, n);
    var s3, s4, s5 := AcceptSteps(s2, n, l);
    path', acts' := Then(path, acts, JoinStart(n, s.nodes[0].room));
    path', acts' := Then(path', acts', JoinDial(n, 0));
    path', acts' := Then(path', acts', TakeHello(l, false));
    path', acts' := Then(path', acts', Park(l));
    path', acts' := Then(path', acts', Take(0, s.nodes[0].nextReq));
  }

  lemma StartReady(s: State)
    requires s == TwoJoiners()
    ensures CalmRun([s], []) && ReadyFor(s, 1)
    ensures forall t | Accepting(s, t, 1) :: ReadyFor(t, 2)
    ensures forall t, u | Accepting(s, t, 1) && Accepting(t, u, 2) :: |u.links| == 2 && CanSnapshot(u, 0) && CanSnapshot(u, 1)
  {
    forall t, u | Accepting(s, t, 1) && Accepting(t, u, 2) ensures |u.links| == 2 && CanSnapshot(u, 0) && CanSnapshot(u, 1) {
      assert u.links[0] == t.links[0];
    }
  }

  lemma SnapshotBoth(s: State)
    requires |s.links| == 2 && CanSnapshot(s, 0) && CanSnapshot(s, 1)
    ensures Enabled(s, Snapshot(0)) && WindowOpen(Apply(s, Snapshot(0))) && Enabled(Apply(s, Snapshot(0)), Snapshot(1))
  {
    var t := Apply(s, Snapshot(0));
    assert InWindow(t.links[0].far);
  }

  /** The guard of FullMeshIff is needed: two approvals that overlap, as two clicks on the host's
      screen may, lead to a calm and settled room whose members are not all linked. */
  lemma OverlapBreaksMesh() returns (path: seq<State>, acts: seq<Action>)
    ensures CalmRun(path, acts) && Settled(path[|acts|]) && !FullMesh(path[|acts|])
  {
    hide Enabled, Apply, Settled, FullMesh, ReadyFor, Accepting, WindowOpen, Init, CanSnapshot;
    StartReady(TwoJoiners());
    var p1, a1 := AskAndAccept([TwoJoiners()], [], 1);
    var p2, a2 := AskAndAccept(p1, a1, 2);
    SnapshotBoth(p2[|a2|]);
    var p3, a3 := Then(p2, a2, Snapshot(0));
    var p4, a4 := Then(p3, a3, Snapshot(1));
    path, acts := RoomSettles(p4, a4);
    var i := |a3|;
    assert acts[i] == a4[i] == Snapshot(1) && path[i] == p4[i] == p3[i];
    FullMeshIff(path, acts);
  }
}
