/** When the mesh is complete: in a calm run that has settled, all members are linked to each
    other exactly when no two approvals overlapped. */
module MeshFull {
  import opened MeshNode
  import opened MeshModel
  import opened MeshSafety
  import opened MeshWeave
  import opened MeshTheorems

  ghost predicate Member(s: State, n: PeerId) { n == s.a.host || n in s.a.accepted }

  /** Every node's map holds exactly all the other members. */
  ghost predicate FullMesh(s: State) {
    forall n | Member(s, n) :: n in s.nodes && forall q :: q in s.nodes[n].peers <==> Member(s, q) && q != n
  }

  ghost predicate SettledLink(k: Link) {
    && (k.near.Reading? || k.near.Ended? || (k.near.AwaitWelcome? && k.far.Parked?))
    && (k.far.Reading? || k.far.Ended? || k.far.Parked?)
    && (k.near.Reading? ==> k.down == []) && (k.far.Reading? ==> k.up == [])
  }

  /** No message and no thread is left, other than requests waiting for the operator. */
  ghost predicate Settled(s: State) {
    s.joining == {} && s.dials == {} && s.drains == {} && forall l | 0 <= l < |s.links| :: SettledLink(s.links[l])
  }

  /** An approval that has read its list of peers but not attached its newcomer. */
  ghost predicate InWindow(far: Phase) { far.Announcing? || far.Greeting? || far.Admitting? }

  ghost predicate WindowOpen(s: State) { exists l :: 0 <= l < |s.links| && InWindow(s.links[l].far) }

  /** No approval reads its list while another is between its own read and its attach. */
  ghost predicate NoOverlap(path: seq<State>, acts: seq<Action>)
    requires |path| == |acts| + 1
  {
    forall i | 0 <= i < |acts| && acts[i].Snapshot? :: !WindowOpen(path[i])
  }

  // ----- settled rooms -----

  /** In a settled room a member's join link is attached on both sides. */
  lemma SettledMember(s: State, n: PeerId)
    requires Safe(s) && Weave(s) && Settled(s) && n in s.a.accepted
    ensures n in s.a.lists && n in s.nodes && s.a.host in s.nodes && n != s.a.host
    ensures s.a.host in s.nodes[n].peers && n in s.nodes[s.a.host].peers
    ensures n in s.h.joinLink && s.h.joinLink[n] < |s.links| && s.links[s.h.joinLink[n]].near.Reading?
  {
    hide Safe, TasksCalm, NoFarewell, LinksCalm, MeshIndex, StagesOk, EntriesOk, BackOk, TodoOk, PairsOk, QueueOk;
    MemberJoined(s, n);
    var l := s.h.joinLink[n];
    AllLinksOk(s, l);
    WeaveAt(s, l);
    assert SettledLink(s.links[l]);
  }

  lemma MemberJoined(s: State, n: PeerId)
    requires Safe(s) && Weave(s) && n in s.a.accepted
    ensures n in s.h.joinLink && s.h.joinLink[n] < |s.links| && s.links[s.h.joinLink[n]].kind.JoinLink?
    ensures s.links[s.h.joinLink[n]].caller == n && s.links[s.h.joinLink[n]].callee == s.a.host && n != s.a.host
  {
    hide NodesOk, LinksOk, EndsOk, CallsOk, DeskOk, ReqsOk, TasksCalm, NoFarewell, NodesCalm, LinksCalm, MeshIndex, EntriesOk,
      BackOk, TodoOk, PairsOk;
    AcceptedLink(s, s.h.joinLink[n]);
  }

  /** In a settled room two newcomers are linked exactly when one was listed to the other. */
  lemma SettledPair(s: State, p: PeerId, q: PeerId)
    requires Safe(s) && Weave(s) && Settled(s) && p in s.a.accepted && q in s.a.accepted && p != q
    ensures p in s.nodes && q in s.nodes && p in s.a.lists && q in s.a.lists
    ensures q in s.nodes[p].peers <==> q in s.a.lists[p] || p in s.a.lists[q]
  {
    hide Safe, Weave, SettledLink;
    SettledMember(s, p);
    SettledMember(s, q);
    if q in s.a.lists[p] { SettledListed(s, p, q); }
    else if p in s.a.lists[q] { SettledListed(s, q, p); }
    else { Unlisted(s, p, q); }
  }

  lemma SettledListed(s: State, p: PeerId, q: PeerId)
    requires Safe(s) && Weave(s) && Settled(s) && p in s.a.lists && q in s.a.lists[p] && p in s.nodes && q in s.nodes
    requires p in s.a.accepted
    ensures q in s.nodes[p].peers && p in s.nodes[q].peers
  {
    hide Safe, TasksCalm, NoFarewell, NodesCalm, LinksCalm, JoinIndex, StagesOk, EntriesOk, BackOk, TodoOk, QueueOk, SettledLink, MeshIndex;
    SettledMember(s, p);
    assert PairOk(s.h.joinLink, s.h.meshLink, s.nodes, s.links, s.dials, p, q);
    LinkedByIndex(s, p, q);
    var l := s.h.meshLink[(p, q)];
    assert SettledLink(s.links[l]);
    MeshSettled(s.links[l]);
  }

  lemma MeshSettled(k: Link)
    requires SettledLink(k)
    ensures !k.near.AwaitAck? && !k.far.Fresh? && !Called(k.far) && !k.far.CallerAttach?
  {
  }

  lemma Unlisted(s: State, p: PeerId, q: PeerId)
    requires Safe(s) && Weave(s) && p in s.a.lists && q in s.a.lists && p in s.nodes
    requires q !in s.a.lists[p] && p !in s.a.lists[q]
    ensures q !in s.nodes[p].peers
  {
    hide NodesOk, EndsOk, JoinsOk, CallsOk, DeskOk, ReqsOk, TasksCalm, NodesCalm, LinksCalm, StagesOk, EntriesOk, BackOk, TodoOk, PairsOk,
      QueueOk, JoinIndex, FarOk, NearOk, ListsOk;
    assert forall l | 0 <= l < |s.links| :: LinkOk(s.a, s.links[l]);
    Apart(s, p, q);
  }

  /** Every pair of newcomers was listed one way or the other. */
  ghost predicate AllListed(s: State) {
    forall p, q | p in s.a.lists && q in s.a.lists && p != q :: q in s.a.lists[p] || p in s.a.lists[q]
  }

  lemma SettledFull(s: State)
    requires Safe(s) && Weave(s) && Settled(s)
    ensures FullMesh(s) <==> AllListed(s)
  {
    hide Safe, Weave, Settled;
    HostHere(s);
    forall n | n in s.a.accepted ensures n in s.nodes && n in s.a.lists && n != s.a.host { SettledMember(s, n); }
    ListedAccepted(s);
    if FullMesh(s) {
      forall p, q | p in s.a.lists && q in s.a.lists && p != q ensures q in s.a.lists[p] || p in s.a.lists[q] {
        SettledPair(s, p, q);
        assert Member(s, p) && Member(s, q);
      }
    }
    if AllListed(s) {
      forall n, q | Member(s, n) ensures q in s.nodes[n].peers <==> Member(s, q) && q != n {
        if q in s.nodes[n].peers { OnlyMembers(s, n, q); }
        if n in s.a.accepted { SettledMember(s, n); }
        if q in s.a.accepted { SettledMember(s, q); }
        if n in s.a.accepted && q in s.a.accepted && n != q { SettledPair(s, n, q); }
      }
    }
  }

  lemma HostHere(s: State)
    requires Safe(s)
    ensures s.a.host in s.nodes
  {
  }

  lemma ListedAccepted(s: State)
    requires Safe(s)
    ensures s.a.lists.Keys <= s.a.accepted && s.a.host !in s.a.accepted
  {
  }

  lemma OnlyMembers(s: State, n: PeerId, q: PeerId)
    requires Safe(s) && Weave(s) && n in s.nodes && q in s.nodes[n].peers
    ensures Member(s, q) && q != n
  {
    hide EndsOk, JoinsOk, CallsOk, DeskOk, ReqsOk, TasksCalm, NodesCalm, LinksCalm, StagesOk, EntriesOk, TodoOk, PairsOk, QueueOk,
      JoinIndex, MeshIndex, ListsOk;
    assert NodeOk(s.a, n, s.nodes[n]);
    assert Backed(s.links, n, q, s.nodes[n].peers[q]);
    AllLinksOk(s, s.nodes[n].peers[q]);
    OwnEnds(s, s.nodes[n].peers[q]);
  }

  // ----- the condition on the run -----

  /** A newcomer whose list was read is attached, or its approval's window is still open. */
  lemma ListedOrOpen(s: State, q: PeerId)
    requires Safe(s) && Weave(s) && q in s.a.lists && s.a.host in s.nodes
    ensures q in s.nodes[s.a.host].peers || WindowOpen(s)
  {
    hide Safe, TasksCalm, NoFarewell, LinksCalm, MeshIndex, StagesOk, EntriesOk, BackOk, TodoOk, PairsOk, QueueOk, NodesCalm,
      LinkCalm, JoinIndex;
    ListedAccepted(s);
    MemberJoined(s, q);
    AllLinksOk(s, s.h.joinLink[q]);
    WeaveAt(s, s.h.joinLink[q]);
  }

  /** A newcomer whose window is open is in nobody's list and not in the host's map. */
  lemma OpenNotAttached(s: State, l: LinkId)
    requires Safe(s) && Weave(s) && l < |s.links| && InWindow(s.links[l].far)
    ensures s.links[l].caller in s.a.lists && s.a.host in s.nodes && s.links[l].caller !in s.nodes[s.a.host].peers
  {
    hide Safe, TasksCalm, NoFarewell, LinksCalm, MeshIndex, StagesOk, EntriesOk, BackOk, TodoOk, PairsOk, QueueOk, NodesCalm,
      LinkCalm, JoinIndex, ListsOk;
    HostHere(s);
    AllLinksOk(s, l);
    WeaveAt(s, l);
  }

  lemma {:induction false} NoOverlapListed(path: seq<State>, acts: seq<Action>, i: nat)
    requires CalmRun(path, acts) && NoOverlap(path, acts) && i < |path|
    ensures AllListed(path[i])
  {
    hide Enabled, Apply, Safe, Weave, WindowOpen;
    RunWeave(path, acts, i);
    if i > 0 {
      var s, a := path[i - 1], acts[i - 1];
      NoOverlapListed(path, acts, i - 1);
      RunWeave(path, acts, i - 1);
      StepHistory(s, a);
      if a.Snapshot? {
        SnapshotEnabled(s, a);
        SnapshotAtHost(s, a.l);
        HostHere(s);
        forall q | q in s.a.lists ensures q in s.nodes[s.a.host].peers { ListedOrOpen(s, q); }
      }
    }
  }

  /** As long as approvals do not overlap, every two admitted members are at every moment in exactly
      one stage on the way to their direct link, and one side only is the one to call. */
  lemma EveryPairOneStage(path: seq<State>, acts: seq<Action>, i: nat, p: PeerId, q: PeerId)
    requires CalmRun(path, acts) && NoOverlap(path, acts) && i < |path|
    requires p in path[i].a.lists && q in path[i].a.lists && p != q
    ensures q in path[i].a.lists[p] <==> p !in path[i].a.lists[q]
    ensures q in path[i].a.lists[p] ==> Stages(path[i], p, q) == 1
    ensures p in path[i].a.lists[q] ==> Stages(path[i], q, p) == 1
  {
    hide Enabled, Apply, Stages, NodesOk, LinksOk, EndsOk, JoinsOk, CallsOk, DeskOk, ReqsOk, WindowOpen;
    RunSafe(path, acts, i);
    NoOverlapListed(path, acts, i);
    if q in path[i].a.lists[p] { ExactlyOneStage(path, acts, i, p, q); }
    if p in path[i].a.lists[q] { ExactlyOneStage(path, acts, i, q, p); }
  }

  /** Two overlapping approvals leave their newcomers unlisted to each other for good. */
  lemma OverlapUnlisted(path: seq<State>, acts: seq<Action>, i: nat)
    requires CalmRun(path, acts) && i < |acts| && acts[i].Snapshot? && WindowOpen(path[i])
    ensures !AllListed(path[|acts|])
  {
    hide Enabled, Apply, Safe, Weave, InWindow;
    var s, a := path[i], acts[i];
    RunWeave(path, acts, i);
    SnapshotEnabled(s, a);
    SnapshotAtHost(s, a.l);
    StepHistory(s, a);
    var m :| 0 <= m < |s.links| && InWindow(s.links[m].far);
    OpenNotAttached(s, m);
    var p, q := s.links[a.l].caller, s.links[m].caller;
    ListedEarlier(s, q, p);
    ListsStay(path, acts, i, |acts|, q);
    ListsStay(path, acts, i + 1, |acts|, p);
  }

  lemma ListedEarlier(s: State, q: PeerId, p: PeerId)
    requires Safe(s) && q in s.a.lists && p !in s.a.lists
    ensures p !in s.a.lists[q]
  {
  }

  /** Main result. When a calm run has settled, every two members hold one direct link to each
      other, and nothing else, exactly when no approval read its list of peers while another was
      between its own read and its attach. */
  lemma FullMeshIff(path: seq<State>, acts: seq<Action>)
    requires CalmRun(path, acts) && Settled(path[|acts|])
    ensures FullMesh(path[|acts|]) <==> NoOverlap(path, acts)
  {
    hide Enabled, Apply, Safe, Weave, Settled, FullMesh, AllListed, WindowOpen;
    RunWeave(path, acts, |acts|);
    SettledFull(path[|acts|]);
    if NoOverlap(path, acts) {
      NoOverlapListed(path, acts, |acts|);
    } else {
      var i :| 0 <= i < |acts| && acts[i].Snapshot? && WindowOpen(path[i]);
      OverlapUnlisted(path, acts, i);
    }
  }
}
