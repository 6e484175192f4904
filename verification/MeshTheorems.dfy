/** The main results about rooms, stated over whole runs. */
module MeshTheorems {
  import opened MeshNode
  import opened MeshModel
  import opened MeshSafety
  import opened MeshWeave

  // ----- whatever fails, whoever leaves, however approvals overlap -----

  /** Whom a step accepts: the peer of the request a successful `approve` takes. */
  ghost function Accepts(s: State, a: Action): set<PeerId> {
    if a.Take? && CanDecide(s, a.n, a.q) then {s.nodes[a.n].pending[a.q].peer} else {}
  }

  /** The request a step answers with Welcome or Rejected. */
  ghost function Answered(s: State, a: Action): seq<Req> {
    match a
    case SendDecline(l) => if CanSendDecline(s, l) then [s.links[l].far.req] else []
    case Greet(l, ok) => if CanGreet(s, l, ok) then [s.links[l].far.req] else []
    case _ => []
  }

  /** What a step writes into the history. */
  ghost predicate Recorded(s: State, a: Action, t: State) {
    && t.a.accepted == s.a.accepted + Accepts(s, a)
    && t.h.answers == s.h.answers + Answered(s, a)
    && t.a.lists == if a.Snapshot? && CanSnapshot(s, a.l)
                    then s.a.lists[s.links[a.l].far.peer := s.nodes[s.links[a.l].callee].peers.Keys] else s.a.lists
  }

  lemma HistoryJoin(s: State, a: Action)
    requires JoinEnabled(s, a)
    ensures Recorded(s, a, JoinApply(s, a))
  {
    hide HelloPasses, Refuse, Push, Pop, SetPhase, Close, Attach, Detach, PhaseAt, Inbox, NodeAt, EndOf, Retry;
  }

  lemma HistoryApproval(s: State, a: Action)
    requires ApprovalEnabled(s, a)
    ensures Recorded(s, a, ApprovalApply(s, a))
  {
    hide HelloPasses, Refuse, Push, Pop, SetPhase, Close, Attach, Detach, PhaseAt, Inbox, NodeAt, EndOf, Retry;
  }

  lemma HistoryCall(s: State, a: Action)
    requires CallEnabled(s, a)
    ensures Recorded(s, a, CallApply(s, a))
  {
    hide HelloPasses, Refuse, Push, Pop, SetPhase, Close, Attach, Detach, PhaseAt, Inbox, NodeAt, EndOf, Retry;
  }

  lemma HistoryRunning(s: State, a: Action)
    requires RunningEnabled(s, a)
    ensures Recorded(s, a, RunningApply(s, a))
  {
    hide HelloPasses, Refuse, Push, Pop, SetPhase, Close, Attach, Detach, PhaseAt, Inbox, NodeAt, EndOf, Retry;
  }

  lemma StepHistory(s: State, a: Action)
    requires Enabled(s, a)
    ensures Recorded(s, a, Apply(s, a))
  {
    hide Recorded, JoinEnabled, JoinApply, ApprovalEnabled, ApprovalApply, CallEnabled, CallApply, RunningEnabled, RunningApply;
    if JoinEnabled(s, a) { HistoryJoin(s, a); }
    else if ApprovalEnabled(s, a) { HistoryApproval(s, a); }
    else if CallEnabled(s, a) { HistoryCall(s, a); }
    else { HistoryRunning(s, a); }
  }

  ghost predicate AcceptedBefore(path: seq<State>, acts: seq<Action>, i: nat, p: PeerId) {
    exists j :: 0 <= j < i && j < |acts| && j < |path| && p in Accepts(path[j], acts[j])
  }

  lemma {:induction false} AcceptedMeansApproved(path: seq<State>, acts: seq<Action>, i: nat, p: PeerId)
    requires IsRun(path, acts) && i <= |acts|
    ensures p in path[i].a.accepted <==> AcceptedBefore(path, acts, i, p)
  {
    hide Enabled, Apply, Accepts;
    if i > 0 {
      AcceptedMeansApproved(path, acts, i - 1, p);
      StepHistory(path[i - 1], acts[i - 1]);
      if AcceptedBefore(path, acts, i, p) {
        var j :| 0 <= j < i && p in Accepts(path[j], acts[j]);
        assert j < i - 1 ==> AcceptedBefore(path, acts, i - 1, p);
      }
    }
  }

  /** Every id a node holds a link to or would take a call from is the host or was accepted by
      the operator; a node not accepted yet holds nothing. */
  lemma ApprovedOnly(path: seq<State>, acts: seq<Action>, i: nat, n: PeerId, p: PeerId)
    requires IsRun(path, acts) && i <= |acts| && n in path[i].nodes
    requires p in path[i].nodes[n].peers || p in path[i].nodes[n].roster
    ensures p == path[i].a.host || AcceptedBefore(path, acts, i, p)
    ensures n == path[i].a.host || AcceptedBefore(path, acts, i, n)
  {
    hide LinksOk, EndsOk, JoinsOk, CallsOk, DeskOk, ReqsOk, ListsOk, AcceptedBefore, Enabled, Apply;
    RunSafe(path, acts, i);
    assert NodeOk(path[i].a, n, path[i].nodes[n]);
    AcceptedMeansApproved(path, acts, i, p);
    AcceptedMeansApproved(path, acts, i, n);
  }

  lemma {:induction false} AnswersGrow(path: seq<State>, acts: seq<Action>, i: nat, j: nat)
    requires IsRun(path, acts) && i <= j <= |acts|
    ensures path[i].h.answers <= path[j].h.answers
  {
    hide Enabled, Apply, Answered;
    if i < j {
      AnswersGrow(path, acts, i, j - 1);
      StepHistory(path[j - 1], acts[j - 1]);
    }
  }

  /** No request is answered twice, be it by Welcome or by Rejected, in any run. */
  lemma AnsweredOnce(path: seq<State>, acts: seq<Action>, i: nat, j: nat)
    requires IsRun(path, acts) && i < j < |acts|
    requires Answered(path[i], acts[i]) != [] && Answered(path[j], acts[j]) != []
    ensures Answered(path[i], acts[i])[0] != Answered(path[j], acts[j])[0]
  {
    hide Enabled, Apply, Answered, ListsOk, NodesOk, LinksOk, EndsOk, JoinsOk, CallsOk, DeskOk;
    StepHistory(path[i], acts[i]);
    AnswersGrow(path, acts, i + 1, j);
    StepHistory(path[j], acts[j]);
    RunSafe(path, acts, j + 1);
    var log := path[j + 1].h.answers;
    assert log[|path[i].h.answers|] == Answered(path[i], acts[i])[0];
    assert log[|path[j].h.answers|] == Answered(path[j], acts[j])[0];
  }

  /** The number a step gives to a new request. */
  ghost function Numbers(s: State, a: Action): seq<Req> {
    if a.Park? && CanPark(s, a.l) then [s.nodes[s.links[a.l].callee].nextReq] else []
  }

  ghost predicate NumbersGrow(s: State, t: State) {
    t.a.host == s.a.host && forall n | n in s.nodes :: n in t.nodes && s.nodes[n].nextReq <= t.nodes[n].nextReq
  }

  lemma GrowJoin(s: State, a: Action)
    requires JoinEnabled(s, a)
    ensures NumbersGrow(s, JoinApply(s, a))
  {
    hide HelloPasses, Refuse, Push, Pop, SetPhase, Close, PhaseAt, Inbox, EndOf, Retry, FirstCalls;
  }

  lemma GrowApproval(s: State, a: Action)
    requires ApprovalEnabled(s, a)
    ensures NumbersGrow(s, ApprovalApply(s, a))
  {
    hide Refuse, Push, Pop, SetPhase, Close, PhaseAt, Inbox, EndOf;
  }

  lemma GrowCall(s: State, a: Action)
    requires CallEnabled(s, a)
    ensures NumbersGrow(s, CallApply(s, a))
  {
    hide Refuse, Push, SetPhase, Close, EndOf, Retry;
  }

  lemma GrowRunning(s: State, a: Action)
    requires RunningEnabled(s, a)
    ensures NumbersGrow(s, RunningApply(s, a))
  {
    hide Refuse, Push, Pop, SetPhase, Close, EndOf, DrainLink;
  }

  lemma StepGrow(s: State, a: Action)
    requires Enabled(s, a)
    ensures NumbersGrow(s, Apply(s, a))
  {
    hide NumbersGrow, JoinEnabled, JoinApply, ApprovalEnabled, ApprovalApply, CallEnabled, CallApply, RunningEnabled, RunningApply;
    if JoinEnabled(s, a) { GrowJoin(s, a); }
    else if ApprovalEnabled(s, a) { GrowApproval(s, a); }
    else if CallEnabled(s, a) { GrowCall(s, a); }
    else { GrowRunning(s, a); }
  }

  lemma {:induction false} RunGrow(path: seq<State>, acts: seq<Action>, i: nat, j: nat)
    requires IsRun(path, acts) && i <= j <= |acts|
    ensures NumbersGrow(path[i], path[j])
  {
    hide Enabled, Apply, Init;
    if i < j {
      RunGrow(path, acts, i, j - 1);
      StepGrow(path[j - 1], acts[j - 1]);
    }
  }

  /** Requests only arrive at the host, and each takes the next number. */
  lemma NumberTaken(s: State, a: Action)
    requires Safe(s) && Enabled(s, a) && Numbers(s, a) != []
    ensures s.a.host in s.nodes && Numbers(s, a) == [s.nodes[s.a.host].nextReq]
    ensures var t := Apply(s, a); t.a.host == s.a.host && s.a.host in t.nodes && t.nodes[s.a.host].nextReq == s.nodes[s.a.host].nextReq + 1
  {
    hide Safe, ListsOk, NodeOk, QueueOk, NearOk;
    At(s, a.l);
  }

  /** No two requests of a run are ever given the same number, open or answered. */
  lemma RequestsUnique(path: seq<State>, acts: seq<Action>, i: nat, j: nat)
    requires IsRun(path, acts) && i < j < |acts|
    requires Numbers(path[i], acts[i]) != [] && Numbers(path[j], acts[j]) != []
    ensures Numbers(path[i], acts[i])[0] < Numbers(path[j], acts[j])[0]
  {
    hide Enabled, Apply, Safe, Numbers, Init;
    RunSafe(path, acts, i);
    RunSafe(path, acts, j);
    NumberTaken(path[i], acts[i]);
    RunGrow(path, acts, i + 1, j);
    NumberTaken(path[j], acts[j]);
  }

  /** Every request that is being decided has a number of its own, one no request was answered under. */
  lemma OpenRequests(path: seq<State>, acts: seq<Action>, i: nat, l: LinkId, m: LinkId)
    requires IsRun(path, acts) && i <= |acts| && l < |path[i].links| && m < |path[i].links| && l != m
    requires HasReq(path[i].links[l].far) && HasReq(path[i].links[m].far)
    ensures path[i].links[l].far.req != path[i].links[m].far.req
    ensures path[i].links[l].far.req !in path[i].h.answers
  {
    hide Enabled, Apply, ListsOk, NodesOk, LinksOk, EndsOk, JoinsOk, CallsOk, DeskOk;
    RunSafe(path, acts, i);
  }

  /** No two mesh links ever run in opposite directions between the same nodes. Links are never
      removed from the state, so this covers every call ever made. */
  lemma OneDialler(path: seq<State>, acts: seq<Action>, i: nat, l: LinkId, m: LinkId)
    requires IsRun(path, acts) && i <= |acts| && l < |path[i].links| && m < |path[i].links|
    requires path[i].links[l].kind.MeshLink? && path[i].links[m].kind.MeshLink?
    ensures !(path[i].links[l].caller == path[i].links[m].callee && path[i].links[l].callee == path[i].links[m].caller)
  {
    Acyclic(path, acts, i, l);
    Acyclic(path, acts, i, m);
  }

  /** "Who dials whom" is acyclic: every call goes to a member listed earlier. */
  lemma Acyclic(path: seq<State>, acts: seq<Action>, i: nat, l: LinkId)
    requires IsRun(path, acts) && i <= |acts| && l < |path[i].links| && path[i].links[l].kind.MeshLink?
    ensures var a, k := path[i].a, path[i].links[l];
      k.caller in a.rank && k.callee in a.rank && a.rank[k.callee] < a.rank[k.caller]
  {
    hide Enabled, Apply, NodesOk, EndsOk, JoinsOk, CallsOk, DeskOk, ReqsOk, QueueOk, NearOk, FarOk;
    RunSafe(path, acts, i);
    assert LinkOk(path[i].a, path[i].links[l]);
  }

  lemma SnapshotAtHost(s: State, l: LinkId)
    requires Safe(s) && CanSnapshot(s, l)
    ensures s.links[l].callee == s.a.host && s.links[l].far.peer == s.links[l].caller && s.links[l].caller !in s.a.lists
  {
    hide Safe, ListsOk, NodeOk, QueueOk;
    At(s, l);
  }

  lemma SnapshotEnabled(s: State, a: Action)
    requires Enabled(s, a) && a.Snapshot?
    ensures CanSnapshot(s, a.l)
  {
  }

  /** A list once read never changes. */
  lemma {:induction false} ListsStay(path: seq<State>, acts: seq<Action>, i: nat, j: nat, p: PeerId)
    requires IsRun(path, acts) && i <= j < |path| && p in path[i].a.lists
    ensures p in path[j].a.lists && path[j].a.lists[p] == path[i].a.lists[p]
  {
    hide Enabled, Apply, Safe;
    if i < j {
      ListsStay(path, acts, i, j - 1, p);
      RunSafe(path, acts, j - 1);
      StepHistory(path[j - 1], acts[j - 1]);
      if acts[j - 1].Snapshot? {
        SnapshotEnabled(path[j - 1], acts[j - 1]);
        SnapshotAtHost(path[j - 1], acts[j - 1].l);
      }
    }
  }

  /** The list a Welcome on the wire carries is the one that was read for its newcomer. */
  lemma WelcomeList(path: seq<State>, acts: seq<Action>, i: nat, l: LinkId, x: nat)
    requires IsRun(path, acts) && i <= |acts| && l < |path[i].links|
    requires x < |path[i].links[l].down| && path[i].links[l].down[x].Welcome?
    ensures path[i].links[l].caller in path[i].a.lists
    ensures path[i].links[l].down[x].peers == path[i].a.lists[path[i].links[l].caller]
  {
    hide Enabled, Apply, NodesOk, EndsOk, JoinsOk, CallsOk, DeskOk, ReqsOk, NearOk, FarOk;
    RunSafe(path, acts, i);
    var k := path[i].links[l];
    assert LinkOk(path[i].a, k);
    assert MsgOk(path[i].a, k.kind, k.caller, k.callee, false, k.down[x]);
  }

  /** No two members are ever each listed in the other's Welcome, whenever in a run the two are sent. */
  lemma ListedOneWay(path: seq<State>, acts: seq<Action>, i: nat, l: LinkId, x: nat, j: nat, m: LinkId, y: nat)
    requires IsRun(path, acts)
    requires i <= |acts| && l < |path[i].links| && x < |path[i].links[l].down| && path[i].links[l].down[x].Welcome?
    requires j <= |acts| && m < |path[j].links| && y < |path[j].links[m].down| && path[j].links[m].down[y].Welcome?
    ensures !(path[i].links[l].caller in path[j].links[m].down[y].peers && path[j].links[m].caller in path[i].links[l].down[x].peers)
  {
    hide Enabled, Apply, NodesOk, LinksOk, EndsOk, JoinsOk, CallsOk, DeskOk, ReqsOk, Init;
    var late := if i <= j then j else i;
    WelcomeList(path, acts, i, l, x);
    WelcomeList(path, acts, j, m, y);
    ListsStay(path, acts, i, late, path[i].links[l].caller);
    ListsStay(path, acts, j, late, path[j].links[m].caller);
    RunSafe(path, acts, late);
  }

  // ----- calm runs: nobody departs, no link fails, no grace period runs out -----

  /** `q` knows of `p`, or the host's PeerJoined for `p` is queued on the link `q` joined by. */
  ghost predicate AnnouncedTo(s: State, p: PeerId, q: PeerId) {
    || (q in s.nodes && p in s.nodes[q].roster)
    || exists m :: 0 <= m < |s.links| && s.links[m].kind.JoinLink? && s.links[m].caller == q && s.links[m].callee == s.a.host &&
         PeerJoined(p) in s.links[m].down
  }

  /** Whatever stage a mesh call is in, it was announced to the node it goes to before it was made. */
  lemma CallAnnounced(s: State, l: LinkId)
    requires Safe(s) && Weave(s) && l < |s.links| && s.links[l].kind.MeshLink?
    ensures AnnouncedTo(s, s.links[l].caller, s.links[l].callee)
    ensures s.links[l].callee in s.h.joinLink && s.h.joinLink[s.links[l].callee] < |s.links|
    ensures Announced(s.nodes, s.links[s.h.joinLink[s.links[l].callee]], s.links[l].caller)
    ensures s.links[s.h.joinLink[s.links[l].callee]].far.Reading?
  {
    hide Safe, EntriesOk, BackOk, TodoOk, LinksCalm, NodesCalm, TasksCalm, NoFarewell, QueueOk, EntryOk, NearOk;
    AllLinksOk(s, l);
    WeaveAt(s, l);
    var p, q := s.links[l].caller, s.links[l].callee;
    assert PairOk(s.h.joinLink, s.h.meshLink, s.nodes, s.links, s.dials, p, q);
    AllLinksOk(s, s.h.joinLink[p]);
    AllLinksOk(s, s.h.joinLink[q]);
    WeaveAt(s, s.h.joinLink[p]);
    AcceptedLink(s, s.h.joinLink[q]);
  }

  /** The node and the peer of an attach step. */
  ghost predicate Attaches(s: State, a: Action, n: PeerId, p: PeerId) {
    match a
    case AttachHost(l) => CanAttachHost(s, l) && n == s.links[l].caller && p == s.links[l].near.host
    case Admit(l) => CanAdmit(s, l) && n == s.links[l].callee && p == s.links[l].far.peer
    case AttachCaller(l) => CanAttachCaller(s, l) && n == s.links[l].callee && p == s.links[l].far.peer
    case TakeAck(l) => CanTakeAck(s, l) && n == s.links[l].caller && p == s.links[l].down[0].peer
    case _ => false
  }

  /** Without departures and failures no attach ever overwrites an entry. */
  lemma NeverOverwrites(path: seq<State>, acts: seq<Action>, i: nat, n: PeerId, p: PeerId)
    requires CalmRun(path, acts) && i < |acts| && Attaches(path[i], acts[i], n, p)
    ensures n in path[i].nodes && p !in path[i].nodes[n].peers
  {
    hide Enabled, Apply, Safe, Weave, Attaches;
    RunWeave(path, acts, i);
    AttachFresh(path[i], acts[i], n, p);
  }

  lemma AttachFresh(s: State, a: Action, n: PeerId, p: PeerId)
    requires Safe(s) && Weave(s) && Attaches(s, a, n, p)
    ensures n in s.nodes && p !in s.nodes[n].peers
  {
    hide Safe, Weave, LinkOk, LinkCalm, StageOk, ListsOk, NodesCalm;
    WeaveAt(s, a.l);
    NearTarget(s, a.l);
  }

  /** Whom each side of a link takes itself to be talking to. */
  lemma NearTarget(s: State, l: LinkId)
    requires Safe(s) && l < |s.links|
    ensures var k := s.links[l];
            && (k.near.HostAttach? ==> k.near.host == k.callee)
            && (k.far.Admitting? ==> k.far.peer == k.caller) && (k.far.CallerAttach? ==> k.far.peer == k.caller)
            && (k.near.AwaitAck? && k.down != [] && k.down[0].MeshAck? ==> k.down[0].peer == k.callee)
  {
    hide ListsOk, NodesOk, EndsOk, JoinsOk, CallsOk, DeskOk, ReqsOk;
    var k := s.links[l];
    assert LinkOk(s.a, k);
    assert k.down != [] ==> MsgOk(s.a, k.kind, k.caller, k.callee, false, k.down[0]);
  }

  // ----- the stages of one pair -----

  ghost predicate MeshCall(s: State, l: LinkId, p: PeerId, q: PeerId) {
    l < |s.links| && s.links[l].kind.MeshLink? && s.links[l].caller == p && s.links[l].callee == q
  }

  /** `p` has not acted on its Welcome yet. */
  ghost predicate ListedStage(s: State, p: PeerId) {
    exists l :: 0 <= l < |s.links| && s.links[l].kind.JoinLink? && s.links[l].caller == p && Undelivered(s.links[l].near)
  }

  /** A dial thread of `p` for `q` has not connected yet. */
  ghost predicate DialStage(s: State, p: PeerId, q: PeerId) { exists c :: c in s.dials && c.from == p && c.to == q }

  /** The call is in flight or held; no answer has been sent. */
  ghost predicate CallStage(s: State, p: PeerId, q: PeerId) {
    exists l: LinkId :: MeshCall(s, l, p, q) && s.links[l].near.AwaitAck? && (s.links[l].far.Fresh? || Called(s.links[l].far))
  }

  /** The call was accepted; one side at least has still to attach the link. */
  ghost predicate AckStage(s: State, p: PeerId, q: PeerId) {
    exists l: LinkId :: MeshCall(s, l, p, q) && Acked(s.links[l].far) && !(s.links[l].near.Reading? && s.links[l].far.Reading?)
  }

  /** Both nodes hold the same direct link to each other. */
  ghost predicate LinkedStage(s: State, p: PeerId, q: PeerId) {
    && p in s.nodes && q in s.nodes
    && q in s.nodes[p].peers && p in s.nodes[q].peers && s.nodes[p].peers[q] == s.nodes[q].peers[p]
  }

  function One(b: bool): nat { if b then 1 else 0 }

  /** In how many stages the pair is, with `p` on the dialling side. */
  ghost function Stages(s: State, p: PeerId, q: PeerId): nat {
    One(ListedStage(s, p)) + One(DialStage(s, p, q)) + One(CallStage(s, p, q)) + One(AckStage(s, p, q)) + One(LinkedStage(s, p, q))
  }

  /** The join link of `p` tells whether it is still waiting. */
  lemma ListedByLink(s: State, p: PeerId)
    requires Safe(s) && Weave(s) && p in s.h.joinLink
    ensures s.h.joinLink[p] < |s.links| && (ListedStage(s, p) <==> Undelivered(s.links[s.h.joinLink[p]].near))
  {
    hide ListsOk, NodesOk, LinksOk, JoinsOk, CallsOk, DeskOk, ReqsOk, TasksCalm, NoFarewell, NodesCalm, LinksCalm, MeshIndex,
      StagesOk, EntriesOk, BackOk, TodoOk, PairsOk;
  }

  lemma OneMeshLink(s: State, p: PeerId, q: PeerId, l: LinkId)
    requires MeshIndex(s.h.meshLink, s.links) && MeshCall(s, l, p, q)
    ensures (p, q) in s.h.meshLink && s.h.meshLink[(p, q)] == l
  {
  }

  /** With no mesh link the pair is not linked; with one, the link's two ends say how far it is. */
  lemma StageByLink(s: State, p: PeerId, q: PeerId)
    requires Safe(s) && Weave(s) && p in s.a.lists && q in s.a.lists[p]
    ensures (p, q) !in s.h.meshLink ==> !CallStage(s, p, q) && !AckStage(s, p, q) && !LinkedStage(s, p, q)
    ensures (p, q) in s.h.meshLink ==>
      One(CallStage(s, p, q)) + One(AckStage(s, p, q)) + One(LinkedStage(s, p, q)) == 1
  {
    hide Safe, TasksCalm, NoFarewell, NodesCalm, LinksCalm, JoinIndex, StagesOk, EntriesOk, BackOk, TodoOk, PairsOk, QueueOk,
      MeshIndex, MeshCall;
    NoBackCall(s, p, q);
    MembersThere(s, p);
    MembersThere(s, q);
    forall l: LinkId | MeshCall(s, l, p, q) ensures (p, q) in s.h.meshLink && s.h.meshLink[(p, q)] == l {
      OneMeshLink(s, p, q, l);
    }
    if (p, q) !in s.h.meshLink {
      Apart(s, p, q);
    } else {
      LinkedByIndex(s, p, q);
    }
  }

  lemma LinkedByIndex(s: State, p: PeerId, q: PeerId)
    requires Safe(s) && Weave(s) && (p, q) in s.h.meshLink && p in s.nodes && q in s.nodes
    ensures var l := s.h.meshLink[(p, q)];
      && MeshCall(s, l, p, q)
      && (LinkedStage(s, p, q) <==> s.links[l].near.Reading? && s.links[l].far.Reading?)
      && (Acked(s.links[l].far) <==> !s.links[l].far.Fresh? && !Called(s.links[l].far))
      && (s.links[l].near.AwaitAck? || (s.links[l].near.Reading? && Acked(s.links[l].far)))
  {
    hide Safe, TasksCalm, NoFarewell, NodesCalm, LinksCalm, JoinIndex, StagesOk, EntriesOk, BackOk, TodoOk, PairsOk, QueueOk;
    var l := s.h.meshLink[(p, q)];
    AllLinksOk(s, l);
    WeaveAt(s, l);
  }

  lemma MembersThere(s: State, p: PeerId)
    requires Safe(s) && Weave(s) && p in s.a.lists
    ensures p in s.nodes
  {
    hide NodesOk, LinksOk, JoinsOk, CallsOk, DeskOk, ReqsOk, TasksCalm, NoFarewell, LinksCalm, MeshIndex, EndsOk,
      StagesOk, EntriesOk, BackOk, TodoOk, PairsOk;
  }

  /** Every pair of a newcomer and a member on its list is in exactly one stage on its way to a
      direct link: the list not acted on, a dial thread, a call without answer, an accepted call
      not attached on both sides, or one link held by both. */
  lemma ExactlyOneStage(path: seq<State>, acts: seq<Action>, i: nat, p: PeerId, q: PeerId)
    requires CalmRun(path, acts) && i <= |acts| && p in path[i].a.lists && q in path[i].a.lists[p]
    ensures Stages(path[i], p, q) == 1
  {
    hide Enabled, Apply, Safe, CallStage, AckStage, LinkedStage, ListedStage, TasksCalm, NodesCalm, LinksCalm, StagesOk,
      EntriesOk, BackOk, TodoOk, MeshIndex, Init;
    RunWeave(path, acts, i);
    var s := path[i];
    assert PairOk(s.h.joinLink, s.h.meshLink, s.nodes, s.links, s.dials, p, q);
    ListedByLink(s, p);
    StageByLink(s, p, q);
    assert DialStage(s, p, q) <==> Call(p, q, 0) in s.dials by {
      if DialStage(s, p, q) {
        var c :| c in s.dials && c.from == p && c.to == q;
        assert c == Call(p, q, 0);
      }
    }
  }
}
