/** What every run keeps in which nobody leaves and no join link breaks. Mesh links may break, grace
    periods may run out, dials may fail and be tried again, and approvals may overlap. */
module MeshSteady {
  import opened MeshNode
  import opened MeshModel
  import opened MeshSafety
  import opened MeshWeave
  import opened MeshTheorems

  ghost predicate Steady(s: State, a: Action) {
    !a.Leave? && (a.Cut? ==> a.l < |s.links| && s.links[a.l].kind.MeshLink?)
  }

  ghost predicate SteadyRun(path: seq<State>, acts: seq<Action>) {
    IsRun(path, acts) && forall i | 0 <= i < |acts| :: Steady(path[i], acts[i])
  }

  // ----- the invariant -----

  ghost predicate JoinsCalm(a: Approvals, nodes: map<PeerId, NodeState>, links: seq<Link>) {
    forall l | 0 <= l < |links| && links[l].kind.JoinLink? :: LinkCalm(a, nodes, links[l])
  }

  /** Nobody is told on a mesh link that somebody left. */
  ghost predicate MeshQuiet(k: Link) {
    (forall m | m in k.up :: !m.PeerLeft?) && (forall m | m in k.down :: !m.PeerLeft?)
  }

  ghost predicate MeshesQuiet(links: seq<Link>) {
    forall l | 0 <= l < |links| && links[l].kind.MeshLink? :: MeshQuiet(links[l])
  }

  ghost predicate HostEntry(links: seq<Link>, q: PeerId, m: LinkId) {
    m < |links| && links[m].kind.JoinLink? && links[m].caller == q && links[m].far.Reading?
  }

  /** The host holds the join links it reads. */
  ghost predicate HostMap(host: PeerId, nodes: map<PeerId, NodeState>, links: seq<Link>) {
    host in nodes && forall q | q in nodes[host].peers :: HostEntry(links, q, nodes[host].peers[q])
  }

  /** Member `q`, listed to newcomer `p`, is still to be told of `p`, or has been. */
  ghost predicate Listed(joinLink: map<PeerId, LinkId>, nodes: map<PeerId, NodeState>, links: seq<Link>, p: PeerId, q: PeerId) {
    p in joinLink && q in joinLink && joinLink[p] < |links| && joinLink[q] < |links| &&
    var kp, kq := links[joinLink[p]], links[joinLink[q]];
    && kq.far.Reading?
    && ((kp.far.Announcing? && joinLink[q] in kp.far.todo) || Announced(nodes, kq, p))
  }

  ghost predicate AllListed(lists: map<PeerId, set<PeerId>>, joinLink: map<PeerId, LinkId>,
                            nodes: map<PeerId, NodeState>, links: seq<Link>) {
    forall p, q | p in lists && q in lists[p] :: Listed(joinLink, nodes, links, p, q)
  }

  /** The announcements about `p` have all been sent. */
  ghost predicate Through(joinLink: map<PeerId, LinkId>, links: seq<Link>, p: PeerId) {
    p in joinLink && joinLink[p] < |links| && Welcomed(links[joinLink[p]].far)
  }

  ghost predicate CallersThrough(joinLink: map<PeerId, LinkId>, links: seq<Link>, dials: set<Call>) {
    && (forall c | c in dials :: Through(joinLink, links, c.from))
    && (forall l | 0 <= l < |links| && links[l].kind.MeshLink? :: Through(joinLink, links, links[l].caller))
  }

  ghost predicate Firm(s: State) {
    && TasksCalm(s.a.host, s.nodes, s.joining, s.drains) && NodesCalm(s.a, s.nodes) && s.byes == {} && s.lefts == {}
    && JoinsCalm(s.a, s.nodes, s.links) && MeshesQuiet(s.links) && JoinIndex(s.h.joinLink, s.links)
    && StagesOk(s.a, s.links) && TodoOk(s.links) && HostMap(s.a.host, s.nodes, s.links)
    && AllListed(s.a.lists, s.h.joinLink, s.nodes, s.links) && CallersThrough(s.h.joinLink, s.links, s.dials)
  }

  lemma InitFirm(s: State)
    requires Init(s)
    ensures Firm(s)
  {}

  lemma FirmAt(s: State, l: LinkId)
    requires Safe(s) && Firm(s) && OnLink(s, l)
    ensures LinkOk(s.a, s.links[l]) && StageOk(s.a, s.links[l]) && ListsOk(s.a) && NodesCalm(s.a, s.nodes)
    ensures if s.links[l].kind.JoinLink? then LinkCalm(s.a, s.nodes, s.links[l])
            else MeshQuiet(s.links[l]) && Through(s.h.joinLink, s.links, s.links[l].caller)
    ensures s.byes == {} && s.lefts == {}
  {
    hide LinkOk, LinkCalm, StageOk, ListsOk, NodesCalm, NodesOk, JoinsOk, DeskOk, ReqsOk, AllListed, TodoOk, HostMap, MeshQuiet;
  }

  // ----- quiet steps -----

  /** A change of one join link that undoes nothing. */
  ghost predicate JoinMoved(a: Approvals, nodes: map<PeerId, NodeState>, k: Link, j: Link) {
    && LinkCalm(a, nodes, j) && StageOk(a, j) && FewerTodo(k, j)
    && (k.far.Reading? ==> j.far.Reading?) && (Welcomed(k.far) ==> Welcomed(j.far))
    && (k.far.Announcing? ==> j.far == k.far || k.far.todo == {})
    && forall p | k.far.Reading? && PeerJoined(p) in k.down ::
         PeerJoined(p) in j.down || (k.caller in nodes && p in nodes[k.caller].roster)
  }

  ghost predicate LinkMoved(a: Approvals, nodes: map<PeerId, NodeState>, k: Link, j: Link) {
    j == k || (SameEnds(k, j) && if k.kind.MeshLink? then MeshQuiet(j) else JoinMoved(a, nodes, k, j))
  }

  ghost predicate NodesMoved(x: map<PeerId, NodeState>, y: map<PeerId, NodeState>) {
    y.Keys == x.Keys && forall n | n in x :: SameShape(x[n], y[n])
  }

  ghost predicate LinksMoved(s: State, t: State) {
    && |s.links| <= |t.links|
    && (forall l | 0 <= l < |s.links| :: LinkMoved(t.a, t.nodes, s.links[l], t.links[l]))
    && (forall l | |s.links| <= l < |t.links| ::
          t.links[l].kind.MeshLink? && MeshQuiet(t.links[l]) && Through(s.h.joinLink, s.links, t.links[l].caller))
  }

  ghost predicate Moved(s: State, t: State) {
    && t.a == s.a && t.h.joinLink == s.h.joinLink && t.byes == s.byes && t.lefts == s.lefts
    && t.joining == s.joining && t.drains == s.drains
    && NodesMoved(s.nodes, t.nodes) && LinksMoved(s, t)
    && (forall c | c in t.dials :: c in s.dials || Through(s.h.joinLink, s.links, c.from))
  }

  lemma MovedJoins(s: State, t: State)
    requires Moved(s, t) && JoinsCalm(s.a, s.nodes, s.links) && MeshesQuiet(s.links)
    ensures JoinsCalm(t.a, t.nodes, t.links) && MeshesQuiet(t.links)
  {
    hide MeshCalm, Delivery, MeshQuiet, Through, StageOk, FewerTodo;
    forall l | 0 <= l < |t.links| && t.links[l].kind.JoinLink? ensures LinkCalm(t.a, t.nodes, t.links[l]) {
      assert LinkMoved(t.a, t.nodes, s.links[l], t.links[l]);
      assert LinkCalm(s.a, s.nodes, s.links[l]);
    }
    forall l | 0 <= l < |t.links| && t.links[l].kind.MeshLink? ensures MeshQuiet(t.links[l]) {
      assert l < |s.links| ==> LinkMoved(t.a, t.nodes, s.links[l], t.links[l]);
    }
  }

  lemma MovedIndex(s: State, t: State)
    requires Moved(s, t) && JoinIndex(s.h.joinLink, s.links) && StagesOk(s.a, s.links)
    ensures JoinIndex(t.h.joinLink, t.links) && StagesOk(t.a, t.links)
  {
    hide LinkCalm, MeshQuiet, Through, FewerTodo;
    forall l | 0 <= l < |t.links| ensures StageOk(t.a, t.links[l]) {
      assert l < |s.links| ==> StageOk(s.a, s.links[l]) && LinkMoved(t.a, t.nodes, s.links[l], t.links[l]);
    }
  }

  /** Only the threads of join links announce. */
  ghost predicate MeshSilent(links: seq<Link>) {
    forall l | 0 <= l < |links| && links[l].kind.MeshLink? :: !links[l].far.Announcing?
  }

  lemma MovedTodo(s: State, t: State)
    requires Moved(s, t) && TodoOk(s.links) && MeshSilent(t.links)
    ensures TodoOk(t.links)
  {
    hide LinkCalm, MeshQuiet, Through, StageOk, NodesMoved;
    forall l, m | 0 <= l < |t.links| && t.links[l].far.Announcing? && m in t.links[l].far.todo
      ensures TodoEntry(t.links, t.links[l].far.list, m)
    {
      assert LinkMoved(t.a, t.nodes, s.links[l], t.links[l]);
      assert m in s.links[l].far.todo;
      assert TodoEntry(s.links, s.links[l].far.list, m);
      assert LinkMoved(t.a, t.nodes, s.links[m], t.links[m]);
    }
  }

  lemma MovedHost(s: State, t: State)
    requires Moved(s, t) && HostMap(s.a.host, s.nodes, s.links) && t.nodes[t.a.host].peers == s.nodes[s.a.host].peers
    ensures HostMap(t.a.host, t.nodes, t.links)
  {
    hide LinkCalm, MeshQuiet, Through, StageOk, FewerTodo, Welcomed;
    forall q | q in t.nodes[t.a.host].peers ensures HostEntry(t.links, q, t.nodes[t.a.host].peers[q]) {
      var m := s.nodes[s.a.host].peers[q];
      assert HostEntry(s.links, q, m);
      assert LinkMoved(t.a, t.nodes, s.links[m], t.links[m]);
    }
  }

  lemma MovedListed(s: State, t: State)
    requires Moved(s, t) && AllListed(s.a.lists, s.h.joinLink, s.nodes, s.links) && JoinIndex(s.h.joinLink, s.links)
    ensures AllListed(t.a.lists, t.h.joinLink, t.nodes, t.links)
  {
    hide LinkCalm, MeshQuiet, Through, StageOk, FewerTodo, Welcomed;
    forall p, q | p in t.a.lists && q in t.a.lists[p] ensures Listed(t.h.joinLink, t.nodes, t.links, p, q) {
      assert Listed(s.h.joinLink, s.nodes, s.links, p, q);
      var lp, lq := s.h.joinLink[p], s.h.joinLink[q];
      assert LinkMoved(t.a, t.nodes, s.links[lp], t.links[lp]) && LinkMoved(t.a, t.nodes, s.links[lq], t.links[lq]);
    }
  }

  lemma MovedThrough(s: State, t: State)
    requires Moved(s, t) && CallersThrough(s.h.joinLink, s.links, s.dials) && JoinIndex(s.h.joinLink, s.links)
    ensures CallersThrough(t.h.joinLink, t.links, t.dials)
  {
    hide LinkCalm, MeshQuiet, StageOk, FewerTodo, Welcomed, NodesMoved;
    forall p | Through(s.h.joinLink, s.links, p) ensures Through(t.h.joinLink, t.links, p) {
      assert LinkMoved(t.a, t.nodes, s.links[s.h.joinLink[p]], t.links[s.h.joinLink[p]]);
    }
    forall l | 0 <= l < |t.links| && t.links[l].kind.MeshLink? ensures Through(t.h.joinLink, t.links, t.links[l].caller) {
      assert l < |s.links| ==> LinkMoved(t.a, t.nodes, s.links[l], t.links[l]);
    }
  }

  lemma MovedTasks(s: State, t: State)
    requires Moved(s, t) && TasksCalm(s.a.host, s.nodes, s.joining, s.drains) && NodesCalm(s.a, s.nodes)
    ensures TasksCalm(t.a.host, t.nodes, t.joining, t.drains) && NodesCalm(t.a, t.nodes)
  {
    hide LinksMoved;
  }

  lemma MovedFirm(s: State, t: State)
    requires Firm(s) && Moved(s, t) && MeshSilent(t.links)
    requires t.nodes[t.a.host].peers == s.nodes[s.a.host].peers || HostMap(t.a.host, t.nodes, t.links)
    ensures Firm(t)
  {
    MovedTasks(s, t);
    MovedJoins(s, t);
    MovedIndex(s, t);
    MovedTodo(s, t);
    MovedListed(s, t);
    MovedThrough(s, t);
    if t.nodes[t.a.host].peers == s.nodes[s.a.host].peers { MovedHost(s, t); }
    hide TasksCalm, NodesCalm, JoinsCalm, MeshesQuiet, JoinIndex, StagesOk, TodoOk, HostMap, AllListed, CallersThrough, LinksMoved, NodesMoved;
  }

  // ----- a step of one link -----

  ghost predicate OneLink(s: State, t: State, l: LinkId) {
    && l < |s.links| && |t.links| == |s.links| && t.links == s.links[l := t.links[l]]
    && t.a == s.a && t.h.joinLink == s.h.joinLink && t.byes == s.byes && t.lefts == s.lefts
    && t.joining == s.joining && t.drains == s.drains && NodesMoved(s.nodes, t.nodes)
  }

  lemma NotAnnouncing(s: State)
    requires Safe(s)
    ensures MeshSilent(s.links)
  {
    hide ListsOk, NodesOk, EndsOk, JoinsOk, CallsOk, DeskOk, ReqsOk, QueueOk, NearOk;
    assert forall l | 0 <= l < |s.links| :: LinkOk(s.a, s.links[l]);
  }

  lemma OneMoved(s: State, t: State, l: LinkId)
    requires OneLink(s, t, l) && LinkMoved(t.a, t.nodes, s.links[l], t.links[l])
    requires forall c | c in t.dials :: c in s.dials || Through(s.h.joinLink, s.links, c.from)
    ensures Moved(s, t)
  {
    hide NodesMoved, LinkCalm, StageOk, MeshQuiet, Through, FewerTodo;
  }

  lemma OneFirm(s: State, t: State, l: LinkId)
    requires Firm(s) && OneLink(s, t, l) && LinkMoved(t.a, t.nodes, s.links[l], t.links[l]) && Safe(t)
    requires forall c | c in t.dials :: c in s.dials || Through(s.h.joinLink, s.links, c.from)
    requires t.nodes[t.a.host].peers == s.nodes[s.a.host].peers || HostMap(t.a.host, t.nodes, t.links)
    ensures Firm(t)
  {
    hide Moved, Safe, Firm, OneLink, LinkMoved, HostMap, MeshSilent, Through;
    NotAnnouncing(t);
    OneMoved(s, t, l);
    MovedFirm(s, t);
  }

  // ----- mesh links -----

  /** The host is at no end of a mesh link. */
  lemma MeshMembers(s: State, l: LinkId)
    requires Safe(s) && l < |s.links| && s.links[l].kind.MeshLink?
    ensures s.links[l].caller != s.a.host && s.links[l].callee != s.a.host
  {
    hide NodesOk, EndsOk, JoinsOk, CallsOk, DeskOk, ReqsOk, QueueOk, NearOk, FarOk;
    assert LinkOk(s.a, s.links[l]);
  }

  /** What happens on a mesh link leaves all promises standing, as long as nobody is forgotten. */
  lemma MeshFirm(s: State, t: State, l: LinkId, n: PeerId)
    requires Safe(s) && Firm(s) && OneLink(s, t, l) && s.links[l].kind.MeshLink? && Safe(t)
    requires SameEnds(s.links[l], t.links[l]) && MeshQuiet(t.links[l])
    requires t.nodes == s.nodes || ((n == s.links[l].caller || n == s.links[l].callee) && n in t.nodes && t.nodes == s.nodes[n := t.nodes[n]])
    requires forall c | c in t.dials :: c in s.dials || c.from == s.links[l].caller
    ensures Firm(t)
  {
    hide Safe, LinkOk, Firm, MeshQuiet, NodesMoved, Through, HostMap, ListsOk, NodesCalm, StageOk;
    AllLinksOk(s, l);
    FirmAt(s, l);
    MeshMembers(s, l);
    OneFirm(s, t, l);
  }

  lemma TakeMeshHelloFirm(s: State, l: LinkId)
    requires Safe(s) && Firm(s) && CanTakeMeshHello(s, l) && Safe(DoTakeMeshHello(s, l))
    ensures Firm(DoTakeMeshHello(s, l))
  {
    hide Safe, Firm, ListsOk, NodesCalm, NearOk, QueueOk, Through;
    FirmAt(s, l);
    MeshFirm(s, DoTakeMeshHello(s, l), l, s.links[l].callee);
  }

  lemma HeldFirm(s: State, l: LinkId)
    requires Safe(s) && Firm(s)
    ensures CanSeeRoster(s, l) && Safe(DoSeeRoster(s, l)) ==> Firm(DoSeeRoster(s, l))
    ensures CanExpire(s, l) && Safe(DoExpire(s, l)) ==> Firm(DoExpire(s, l))
    ensures CanCheckLinked(s, l) && Safe(DoCheckLinked(s, l)) ==> Firm(DoCheckLinked(s, l))
  {
    hide Safe, Firm, ListsOk, NodesCalm, NearOk, QueueOk, Through;
    if OnLink(s, l) && (s.links[l].far.Held? || s.links[l].far.Seen?) {
      FirmAt(s, l);
      if CanSeeRoster(s, l) && Safe(DoSeeRoster(s, l)) { MeshFirm(s, DoSeeRoster(s, l), l, s.links[l].callee); }
      if CanExpire(s, l) && Safe(DoExpire(s, l)) { MeshFirm(s, DoExpire(s, l), l, s.links[l].callee); }
      if CanCheckLinked(s, l) && Safe(DoCheckLinked(s, l)) { MeshFirm(s, DoCheckLinked(s, l), l, s.links[l].callee); }
    }
  }

  lemma AckFirm(s: State, l: LinkId, ok: bool)
    requires Safe(s) && Firm(s) && CanAck(s, l, ok) && Safe(DoAck(s, l, ok))
    ensures Firm(DoAck(s, l, ok))
  {
    hide Safe, Firm, ListsOk, NodesCalm, NearOk, QueueOk, Through;
    FirmAt(s, l);
    MeshFirm(s, DoAck(s, l, ok), l, s.links[l].callee);
  }

  lemma AttachCallerFirm(s: State, l: LinkId)
    requires Safe(s) && Firm(s) && CanAttachCaller(s, l) && Safe(DoAttachCaller(s, l))
    ensures Firm(DoAttachCaller(s, l))
  {
    hide Safe, Firm, ListsOk, NodesCalm, NearOk, QueueOk, Through;
    FirmAt(s, l);
    MeshFirm(s, DoAttachCaller(s, l), l, s.links[l].callee);
  }

  lemma TakeAckFirm(s: State, l: LinkId)
    requires Safe(s) && Firm(s) && CanTakeAck(s, l) && Safe(DoTakeAck(s, l))
    ensures Firm(DoTakeAck(s, l))
  {
    hide Safe, Firm, ListsOk, NodesCalm, FarOk, QueueOk, Through;
    FirmAt(s, l);
    MeshFirm(s, DoTakeAck(s, l), l, s.links[l].caller);
  }

  lemma CallFailedFirm(s: State, l: LinkId)
    requires Safe(s) && Firm(s) && CanCallFailed(s, l) && Safe(DoCallFailed(s, l))
    ensures Firm(DoCallFailed(s, l))
  {
    hide Safe, Firm, ListsOk, NodesCalm, FarOk, QueueOk, Through;
    FirmAt(s, l);
    MeshFirm(s, DoCallFailed(s, l), l, s.links[l].caller);
  }

  lemma BadFirstFirm(s: State, l: LinkId)
    requires Safe(s) && Firm(s) && CanBadFirst(s, l) && Safe(DoBadFirst(s, l))
    ensures Firm(DoBadFirst(s, l))
  {
    hide Safe, Firm, ListsOk, NodesCalm, NearOk, QueueOk, Through;
    FirmAt(s, l);
    MeshFirm(s, DoBadFirst(s, l), l, s.links[l].callee);
  }

  /** The link breaks: only mesh links do. */
  lemma CutFirm(s: State, l: LinkId, up: nat, down: nat)
    requires Safe(s) && Firm(s) && CanCut(s, l, up, down) && s.links[l].kind.MeshLink? && Safe(DoCut(s, l, up, down))
    ensures Firm(DoCut(s, l, up, down))
  {
    hide Safe, Firm, LinkOk, Through, NodesCalm, ListsOk;
    AllLinksOk(s, l);
    FirmAt(s, l);
    var k := s.links[l];
    assert (forall m | m in k.up[..up] :: m in k.up) && (forall m | m in k.down[..down] :: m in k.down);
    MeshFirm(s, DoCut(s, l, up, down), l, k.caller);
  }

  // ----- dialling -----

  lemma DialFirm(s: State, c: Call)
    requires Safe(s) && Firm(s) && CanDial(s, c) && Safe(DoDial(s, c))
    ensures Firm(DoDial(s, c))
  {
    hide Safe, LinkCalm, StageOk, FewerTodo, JoinsCalm, MeshesQuiet, JoinIndex, StagesOk, TodoOk, HostMap, AllListed, TasksCalm,
      NodesCalm, Through, MeshSilent;
    var t := DoDial(s, c);
    NotAnnouncing(t);
    assert Moved(s, t);
    MovedFirm(s, t);
  }

  lemma DialGoneFirm(s: State, c: Call, t: State)
    requires Safe(s) && Firm(s) && CanDialLost(s, c) && (t == DoDialLost(s, c) || t == DoDialStop(s, c))
    ensures Firm(t)
  {
    hide Safe, LinkCalm, StageOk, FewerTodo, JoinsCalm, MeshesQuiet, JoinIndex, StagesOk, TodoOk, HostMap, AllListed, TasksCalm,
      NodesCalm, Through, MeshSilent;
    NotAnnouncing(s);
    assert Moved(s, t);
    MovedFirm(s, t);
  }

  // ----- reading -----

  lemma ReadFirm(s: State, l: LinkId, e: End)
    requires Safe(s) && Firm(s) && CanRead(s, l, e) && Safe(DoRead(s, l, e))
    ensures Firm(DoRead(s, l, e))
  {
    hide Safe, Firm, LinkOk, ListsOk, NodesCalm, Through;
    FirmAt(s, l);
    if s.links[l].kind.JoinLink? { ReadJoinFirm(s, l, e); } else { ReadMeshFirm(s, l, e); }
  }

  lemma ReadMeshFirm(s: State, l: LinkId, e: End)
    requires Safe(s) && Firm(s) && CanRead(s, l, e) && s.links[l].kind.MeshLink? && Safe(DoRead(s, l, e))
    ensures Firm(DoRead(s, l, e))
  {
    hide Safe, Firm, LinkOk, ListsOk, NodesCalm, Through, DoRead, OneLink, MeshQuiet, NodeOk;
    FirmAt(s, l);
    MeshMembers(s, l);
    At(s, l);
    NotHosting(s.a, NodeAt(s.links[l], e), s.nodes[NodeAt(s.links[l], e)]);
    ReadChanges(s, l, e);
    MeshFirm(s, DoRead(s, l, e), l, NodeAt(s.links[l], e));
  }

  lemma NotHosting(a: Approvals, n: PeerId, ns: NodeState)
    requires NodeOk(a, n, ns) && n != a.host
    ensures !ns.role.Host?
  {}

  /** What reading a message of a mesh link changes. */
  ghost predicate OneRead(s: State, t: State, l: LinkId, n: PeerId)
    requires l < |s.links|
  {
    && OneLink(s, t, l) && SameEnds(s.links[l], t.links[l]) && MeshQuiet(t.links[l]) && t.dials == s.dials
    && n in t.nodes && (t.nodes == s.nodes || t.nodes == s.nodes[n := t.nodes[n]])
  }

  lemma ReadChanges(s: State, l: LinkId, e: End)
    requires CanRead(s, l, e) && MeshQuiet(s.links[l]) && !s.nodes[NodeAt(s.links[l], e)].role.Host?
    ensures OneRead(s, DoRead(s, l, e), l, NodeAt(s.links[l], e))
  {
    PopQuiet(s.links[l], e);
    if Inbox(s.links[l], e)[0].Bye? {
      hide MeshQuiet, SameShape, Detach;
      assert DoRead(s, l, e) == GoneAt(PutLink(s, l, Pop(s.links[l], e)), l, e, PhaseAt(s.links[l], e).peer, true);
      hide DoRead, OneRead;
      GoneChanges(s, Pop(s.links[l], e), l, e, true);
    } else {
      hide GoneAt;
    }
  }

  lemma PopQuiet(k: Link, e: End)
    requires MeshQuiet(k) && Inbox(k, e) != []
    ensures MeshQuiet(Pop(k, e))
  {
    assert (forall m | m in Pop(k, e).up :: m in k.up) && (forall m | m in Pop(k, e).down :: m in k.down);
  }

  lemma GoneChanges(s: State, k: Link, l: LinkId, e: End, again: bool)
    requires OnLink(s, l) && SameEnds(s.links[l], k) && MeshQuiet(k) && PhaseAt(k, e).Reading?
    requires !s.nodes[NodeAt(k, e)].role.Host?
    ensures OneRead(s, GoneAt(PutLink(s, l, k), l, e, PhaseAt(k, e).peer, again), l, NodeAt(k, e))
  {
    var t := GoneAt(PutLink(s, l, k), l, e, PhaseAt(k, e).peer, again);
    assert s.links[l := k][l := t.links[l]] == s.links[l := t.links[l]];
  }

  /** A newcomer reads an announcement. */
  lemma ReadJoinFirm(s: State, l: LinkId, e: End)
    requires Safe(s) && Firm(s) && CanRead(s, l, e) && s.links[l].kind.JoinLink? && Safe(DoRead(s, l, e))
    ensures Firm(DoRead(s, l, e))
  {
    hide Safe, Firm, ListsOk, NodesCalm, Through, QueueOk, NearOk, FarOk;
    FirmAt(s, l);
    JoinersAreNotHost(s, l);
    var k := s.links[l];
    assert k.down != [] && AllJoined(k.down) && e.Caller?;
    var t := DoRead(s, l, e);
    assert forall m | m in k.down :: m == k.down[0] || m in k.down[1..];
    assert JoinMoved(t.a, t.nodes, k, t.links[l]);
    OneFirm(s, t, l);
  }

  lemma EofFirm(s: State, l: LinkId, e: End)
    requires Safe(s) && Firm(s) && CanEof(s, l, e) && Safe(DoEof(s, l, e))
    ensures Firm(DoEof(s, l, e))
  {
    hide Safe, Firm, ListsOk, NodesCalm, Through, QueueOk, NearOk, FarOk;
    FirmAt(s, l);
    MeshMembers(s, l);
    At(s, l);
    MeshFirm(s, DoEof(s, l, e), l, NodeAt(s.links[l], e));
  }

  lemma CloseGoneFirm(s: State, l: LinkId, e: End)
    requires Safe(s) && Firm(s) && CanCloseGone(s, l, e) && Safe(DoCloseGone(s, l, e))
    ensures Firm(DoCloseGone(s, l, e))
  {
    hide Safe, Firm, ListsOk, NodesCalm, Through, QueueOk;
    FirmAt(s, l);
    MeshMembers(s, l);
    At(s, l);
    MeshFirm(s, DoCloseGone(s, l, e), l, NodeAt(s.links[l], e));
  }

  lemma DrainFirm(s: State, n: PeerId, all: bool)
    requires Safe(s) && Firm(s) && CanDrain(s, n, all)
    ensures Firm(DoDrain(s, n, all))
  {
    hide LinksOk, EndsOk, JoinsOk, CallsOk, DeskOk, ReqsOk, ListsOk, JoinsCalm, JoinIndex, StagesOk, TodoOk, MeshesQuiet, HostMap,
      AllListed, CallersThrough;
    var ns := s.nodes[n];
    assert NodeOk(s.a, n, ns);
    var t := DoDrain(s, n, all);
    assert Drain(ns, false) == ns;
    assert t.nodes == s.nodes;
    assert t.links == s.links;
  }

  // ----- joining -----


  lemma TakeHelloFirm(s: State, l: LinkId, expired: bool)
    requires Safe(s) && Firm(s) && CanTakeHello(s, l) && Safe(DoTakeHello(s, l, expired))
    ensures Firm(DoTakeHello(s, l, expired))
  {
    hide Safe, Firm, QueueOk, NearOk, ListsOk, NodesCalm;
    FirmAt(s, l);
    At(s, l);
    OneFirm(s, DoTakeHello(s, l, expired), l);
  }

  lemma ParkFirm(s: State, l: LinkId)
    requires Safe(s) && Firm(s) && CanPark(s, l) && Safe(DoPark(s, l))
    ensures Firm(DoPark(s, l))
  {
    hide Safe, Firm, QueueOk, NearOk, ListsOk, NodesCalm;
    FirmAt(s, l);
    OneFirm(s, DoPark(s, l), l);
  }

  lemma DeclineFirm(s: State, n: PeerId, req: Req)
    requires Safe(s) && Firm(s) && CanDecide(s, n, req) && Safe(DoDecline(s, n, req))
    ensures Firm(DoDecline(s, n, req))
  {
    hide Safe, Firm, QueueOk, NearOk, ListsOk, NodesCalm;
    DeskEntry(s, n, req);
    var l := s.nodes[n].pending[req].link;
    FirmAt(s, l);
    OneFirm(s, DoDecline(s, n, req), l);
  }

  lemma SendDeclineFirm(s: State, l: LinkId)
    requires Safe(s) && Firm(s) && CanSendDecline(s, l) && Safe(DoSendDecline(s, l))
    ensures Firm(DoSendDecline(s, l))
  {
    hide Safe, Firm, QueueOk, NearOk, ListsOk, NodesCalm;
    FirmAt(s, l);
    OneFirm(s, DoSendDecline(s, l), l);
  }

  lemma EnrollFirm(s: State, l: LinkId)
    requires Safe(s) && Firm(s) && CanEnroll(s, l) && Safe(DoEnroll(s, l))
    ensures Firm(DoEnroll(s, l))
  {
    hide Safe, Firm, QueueOk, NearOk, ListsOk, NodesCalm;
    FirmAt(s, l);
    OneFirm(s, DoEnroll(s, l), l);
  }

  lemma GreetFirm(s: State, l: LinkId, ok: bool)
    requires Safe(s) && Firm(s) && CanGreet(s, l, ok) && Safe(DoGreet(s, l, ok))
    ensures Firm(DoGreet(s, l, ok))
  {
    hide Safe, Firm, QueueOk, NearOk, ListsOk;
    FirmAt(s, l);
    OneFirm(s, DoGreet(s, l, ok), l);
  }

  /** A Welcome is only found on the join link of an admitted newcomer, with the room's code. */
  lemma WelcomeThrough(s: State, l: LinkId)
    requires Safe(s) && Firm(s) && CanTakeWelcome(s, l)
    ensures var k := s.links[l];
            k.kind.JoinLink? && Welcomed(k.far) && k.down[0].room == s.nodes[k.caller].room && AllJoined(k.down[1..])
  {
    hide Safe, Firm;
    FirmAt(s, l);
    assert MsgOk(s.a, s.links[l].kind, s.links[l].caller, s.links[l].callee, false, s.links[l].down[0]);
  }

  lemma TakeWelcomeFirm(s: State, l: LinkId)
    requires Safe(s) && Firm(s) && CanTakeWelcome(s, l) && Safe(DoTakeWelcome(s, l))
    ensures Firm(DoTakeWelcome(s, l))
  {
    hide Safe, Firm, QueueOk, FarOk, ListsOk, NodesCalm;
    FirmAt(s, l);
    JoinersAreNotHost(s, l);
    var k := s.links[l];
    WelcomeThrough(s, l);
    assert forall m | m in k.down :: m == k.down[0] || m in k.down[1..];
    OneFirm(s, DoTakeWelcome(s, l), l);
  }

  lemma AttachHostFirm(s: State, l: LinkId)
    requires Safe(s) && Firm(s) && CanAttachHost(s, l) && Safe(DoAttachHost(s, l))
    ensures Firm(DoAttachHost(s, l))
  {
    hide Safe, Firm, QueueOk, FarOk, ListsOk, NodesCalm;
    FirmAt(s, l);
    JoinersAreNotHost(s, l);
    OwnJoinLink(s, l);
    OneFirm(s, DoAttachHost(s, l), l);
  }

  /** The host's map gains the link it starts to read. */
  lemma AdmitFirm(s: State, l: LinkId)
    requires Safe(s) && Firm(s) && CanAdmit(s, l) && Safe(DoAdmit(s, l))
    ensures Firm(DoAdmit(s, l))
  {
    hide Safe, Firm, QueueOk, NearOk, ListsOk;
    FirmAt(s, l);
    var t := DoAdmit(s, l);
    AdmitHost(s, l);
    OneFirm(s, t, l);
  }

  lemma AdmitHost(s: State, l: LinkId)
    requires Safe(s) && Firm(s) && CanAdmit(s, l)
    ensures var t := DoAdmit(s, l); HostMap(t.a.host, t.nodes, t.links)
  {
    hide Safe, QueueOk, NearOk, ListsOk, AllListed, TodoOk, CallersThrough, MeshesQuiet, StagesOk, JoinsCalm, JoinIndex;
    AllLinksOk(s, l);
    var t := DoAdmit(s, l);
    forall q | q in t.nodes[t.a.host].peers ensures HostEntry(t.links, q, t.nodes[t.a.host].peers[q]) {
      assert q in s.nodes[s.a.host].peers ==> HostEntry(s.links, q, s.nodes[s.a.host].peers[q]);
    }
  }

  // ----- strangers -----

  /** A node nobody knows changes freely. */
  lemma StrangerFirm(s: State, n: PeerId, ns: NodeState, joining: set<PeerId>, drains: set<(PeerId, bool)>)
    requires Safe(s) && Firm(s) && n in s.nodes && !Known(s.a, n)
    requires forall l | 0 <= l < |s.links| && s.links[l].kind.JoinLink? && s.links[l].caller == n :: s.links[l].far.Ended?
    requires TasksCalm(s.a.host, s.nodes[n := ns], joining, drains)
    ensures Firm(PutNode(s, n, ns).(joining := joining, drains := drains))
  {
    hide LinkOk, NodesOk, JoinsOk, DeskOk, ReqsOk, MeshesQuiet, JoinStage, StagesOk, TodoOk, CallersThrough, CallsOk, EndsOk, LinksOk,
      TasksCalm, HostEntry;
    StrangerListed(s, n, ns);
  }

  lemma StrangerListed(s: State, n: PeerId, ns: NodeState)
    requires AllListed(s.a.lists, s.h.joinLink, s.nodes, s.links) && n in s.nodes && n !in s.a.accepted
    requires ListsOk(s.a) && JoinIndex(s.h.joinLink, s.links)
    ensures AllListed(s.a.lists, s.h.joinLink, s.nodes[n := ns], s.links)
  {
    forall p, q | p in s.a.lists && q in s.a.lists[p] ensures Listed(s.h.joinLink, s.nodes[n := ns], s.links, p, q) {
      assert Listed(s.h.joinLink, s.nodes, s.links, p, q);
    }
  }

  lemma JoinStartFirm(s: State, n: PeerId, room: Room)
    requires Safe(s) && Firm(s) && CanJoinStart(s, n)
    ensures Firm(DoJoinStart(s, n, room))
  {
    hide LinksOk, ListsOk, CallsOk, DeskOk, ReqsOk, JoinsCalm, NodesCalm, StagesOk, TodoOk, MeshesQuiet, AllListed, CallersThrough,
      HostMap, JoinIndex;
    assert NodeOk(s.a, n, s.nodes[n]);
    HostThere(s);
    assert NodeOk(s.a, s.a.host, s.nodes[s.a.host]);
    StrangerFirm(s, n, StartJoin(s.nodes[n], room), s.joining + {n}, s.drains);
  }

  lemma JoinFailFirm(s: State, n: PeerId)
    requires Safe(s) && Firm(s) && CanJoinFail(s, n)
    ensures Firm(DoJoinFail(s, n))
  {
    hide LinksOk, ListsOk, CallsOk, DeskOk, ReqsOk, JoinsCalm, NodesCalm, StagesOk, TodoOk, MeshesQuiet, AllListed, CallersThrough,
      HostMap, JoinIndex;
    assert NodeOk(s.a, n, s.nodes[n]);
    StrangerFirm(s, n, Stop(s.nodes[n]), s.joining - {n}, s.drains + {(n, false)});
  }

  lemma JoinRefusedFirm(s: State, l: LinkId)
    requires Safe(s) && Firm(s) && CanJoinRefused(s, l)
    ensures Firm(DoJoinRefused(s, l))
  {
    hide LinksOk, ListsOk, CallsOk, DeskOk, ReqsOk, JoinsCalm, NodesCalm, StagesOk, TodoOk, MeshesQuiet, AllListed, CallersThrough,
      HostMap, JoinIndex;
    var k := s.links[l];
    RefusedLinkFirm(s, l);
    OneJoinLink(s, l);
    assert NodeOk(s.a, k.caller, s.nodes[k.caller]);
    StrangerFirm(PutLink(s, l, Close(k).(near := Ended, down := [])), k.caller, Stop(s.nodes[k.caller]), s.joining,
                 s.drains + {(k.caller, false)});
  }

  /** Only a joiner that was turned away sees its wait for the host end. */
  lemma RefusedLinkFirm(s: State, l: LinkId)
    requires Safe(s) && Firm(s) && CanJoinRefused(s, l)
    ensures var k := s.links[l]; k.kind.JoinLink? && k.far.Ended? && !Known(s.a, k.caller)
    ensures var t := PutLink(s, l, Close(s.links[l]).(near := Ended, down := [])); Safe(t) && Firm(t)
  {
    hide Safe, Firm, NodesCalm;
    FirmAt(s, l);
    JoinersAreNotHost(s, l);
    var j := Close(s.links[l]).(near := Ended, down := []);
    LinkSafe(s, l, j);
    OneFirm(s, PutLink(s, l, j), l);
  }

  // ----- a new join link -----

  lemma JoinDialFirm(s: State, n: PeerId, to: PeerId)
    requires Safe(s) && Firm(s) && CanJoinDial(s, n, to)
    ensures Firm(DoJoinDial(s, n, to))
  {
    hide LinksOk, EndsOk, CallsOk, DeskOk, ReqsOk, ListsOk, NodesOk, NodesCalm, AllListed, MeshQuiet, CallersThrough, TodoOk, MeshCalm;
    assert n !in s.h.joinLink && !Known(s.a, n) && s.nodes[n].running;
    var t := DoJoinDial(s, n, to);
    JoinDialListed(s, n, to);
    JoinDialTodo(s, n, to);
    assert HostMap(t.a.host, t.nodes, t.links) by {
      assert forall q | q in s.nodes[s.a.host].peers :: HostEntry(s.links, q, s.nodes[s.a.host].peers[q]);
    }
  }

  lemma JoinDialTodo(s: State, n: PeerId, to: PeerId)
    requires CanJoinDial(s, n, to) && TodoOk(s.links)
    ensures TodoOk(DoJoinDial(s, n, to).links)
  {
    var t := DoJoinDial(s, n, to);
    forall l, m | 0 <= l < |t.links| && t.links[l].far.Announcing? && m in t.links[l].far.todo
      ensures TodoEntry(t.links, t.links[l].far.list, m)
    {
      assert TodoEntry(s.links, s.links[l].far.list, m);
    }
  }

  lemma JoinDialListed(s: State, n: PeerId, to: PeerId)
    requires CanJoinDial(s, n, to) && n !in s.h.joinLink
    requires AllListed(s.a.lists, s.h.joinLink, s.nodes, s.links) && CallersThrough(s.h.joinLink, s.links, s.dials)
    ensures var t := DoJoinDial(s, n, to);
            AllListed(t.a.lists, t.h.joinLink, t.nodes, t.links) && CallersThrough(t.h.joinLink, t.links, t.dials)
  {
    var t := DoJoinDial(s, n, to);
    forall p, q | p in t.a.lists && q in t.a.lists[p] ensures Listed(t.h.joinLink, t.nodes, t.links, p, q) {
      assert Listed(s.h.joinLink, s.nodes, s.links, p, q);
    }
    assert forall p | Through(s.h.joinLink, s.links, p) :: Through(t.h.joinLink, t.links, p);
  }

  // ----- approvals -----

  /** What stays when link `l` changes and is neither read by the host, through, nor announcing. */
  lemma EarlyLink(s: State, l: LinkId, j: Link)
    requires Safe(s) && Firm(s) && l < |s.links| && s.links[l].kind.JoinLink? && SameEnds(s.links[l], j)
    requires !s.links[l].far.Announcing? && !Welcomed(s.links[l].far)
    ensures var links := s.links[l := j];
            && MeshesQuiet(links) && JoinIndex(s.h.joinLink, links) && HostMap(s.a.host, s.nodes, links)
            && CallersThrough(s.h.joinLink, links, s.dials)
  {
    hide Safe, LinkCalm, StagesOk, TodoOk, MeshQuiet, AllListed, NodesCalm, TasksCalm;
    var links := s.links[l := j];
    forall q | q in s.nodes[s.a.host].peers ensures HostEntry(links, q, s.nodes[s.a.host].peers[q]) {
      assert HostEntry(s.links, q, s.nodes[s.a.host].peers[q]);
    }
    assert forall p | Through(s.h.joinLink, s.links, p) :: Through(s.h.joinLink, links, p);
  }

  lemma QuietNodeFirm(s: State, n: PeerId, ns: NodeState)
    requires Firm(s) && n in s.nodes && QuietNode(s.nodes[n], ns) && MeshSilent(s.links)
    ensures Firm(PutNode(s, n, ns))
  {
    hide TasksCalm, NodesCalm, JoinsCalm, MeshesQuiet, JoinIndex, StagesOk, TodoOk, AllListed, CallersThrough, MeshSilent, LinkCalm,
      MeshQuiet, Through, StageOk, FewerTodo;
    var t := PutNode(s, n, ns);
    assert s.a.host in s.nodes && t.nodes[t.a.host].peers == s.nodes[s.a.host].peers;
    hide HostMap;
    assert Moved(s, t);
    MovedFirm(s, t);
  }

  lemma TakeFirm(s: State, n: PeerId, req: Req)
    requires Safe(s) && Firm(s) && CanDecide(s, n, req)
    ensures Firm(DoTake(s, n, req))
  {
    hide Safe, Firm, QueueOk, NearOk, FarOk, NodeOk, NodesCalm, MeshSilent;
    DeskEntry(s, n, req);
    var l := s.nodes[n].pending[req].link;
    var k := s.links[l];
    FirmAt(s, l);
    ParkedAsking(s.a, k);
    TakeLinkFirm(s, l);
    var t := PutLink(s, l, k.(far := Taken(req, k.caller))).(a := s.a.(accepted := s.a.accepted + {k.caller}));
    SilentKept(s, l, t.links[l]);
    QuietNodeFirm(t, n, RemoveRequest(s.nodes[n], req));
  }

  lemma SilentKept(s: State, l: LinkId, j: Link)
    requires Safe(s) && l < |s.links| && s.links[l].kind.JoinLink? && j.kind.JoinLink?
    ensures MeshSilent(s.links[l := j])
  {
    hide Safe;
    NotAnnouncing(s);
  }

  lemma TakeLinkFirm(s: State, l: LinkId)
    requires Safe(s) && Firm(s) && l < |s.links| && s.links[l].far.Parked? && s.links[l].kind.JoinLink?
    requires s.links[l].caller !in s.a.accepted
    ensures var k := s.links[l];
            Firm(PutLink(s, l, k.(far := Taken(k.far.req, k.caller))).(a := s.a.(accepted := s.a.accepted + {k.caller})))
  {
    hide Safe, MeshesQuiet, JoinIndex, AllListed, CallersThrough, JoinsCalm, StagesOk, TodoOk, NodesCalm, HostEntry;
    var j := s.links[l].(far := Taken(s.links[l].far.req, s.links[l].caller));
    EarlyLink(s, l, j);
    TodoKept(s.links, l, j);
    TakeLinks(s, l, j);
    TakeListed(s, l, j);
  }

  lemma TakeLinks(s: State, l: LinkId, j: Link)
    requires Safe(s) && Firm(s) && l < |s.links| && s.links[l].far.Parked? && s.links[l].kind.JoinLink?
    requires j == s.links[l].(far := Taken(s.links[l].far.req, s.links[l].caller)) && s.links[l].caller !in s.a.accepted
    ensures var a := s.a.(accepted := s.a.accepted + {s.links[l].caller});
            JoinsCalm(a, s.nodes, s.links[l := j]) && StagesOk(a, s.links[l := j]) && NodesCalm(a, s.nodes)
  {
    hide LinkOk, NodesOk, LinksOk, JoinsOk, CallsOk, DeskOk, ReqsOk, TodoOk, HostMap, AllListed, CallersThrough, TasksCalm, MeshesQuiet, JoinIndex;
    OneJoinLink(s, l);
    assert LinkCalm(s.a, s.nodes, s.links[l]);
  }

  lemma TakeListed(s: State, l: LinkId, j: Link)
    requires AllListed(s.a.lists, s.h.joinLink, s.nodes, s.links) && JoinIndex(s.h.joinLink, s.links)
    requires l < |s.links| && !s.links[l].far.Announcing? && !s.links[l].far.Reading? && SameEnds(s.links[l], j)
    ensures AllListed(s.a.lists, s.h.joinLink, s.nodes, s.links[l := j])
  {
    forall p, q | p in s.a.lists && q in s.a.lists[p] ensures Listed(s.h.joinLink, s.nodes, s.links[l := j], p, q) {
      assert Listed(s.h.joinLink, s.nodes, s.links, p, q);
    }
  }

  lemma SnapshotFirm(s: State, l: LinkId)
    requires Safe(s) && Firm(s) && CanSnapshot(s, l)
    ensures Firm(DoSnapshot(s, l))
  {
    hide Safe, MeshesQuiet, JoinIndex, AllListed, CallersThrough, JoinsCalm, StagesOk, TodoOk, HostEntry, LinkOk, ListsOk;
    FirmAt(s, l);
    TakenOk(s.a, s.links[l]);
    var t := DoSnapshot(s, l);
    EarlyLink(s, l, t.links[l]);
    SnapshotLinks(s, l);
    SnapshotEntries(s, l);
    SnapshotListed(s, l);
  }

  lemma SnapshotLinks(s: State, l: LinkId)
    requires Safe(s) && Firm(s) && CanSnapshot(s, l) && s.links[l].kind.JoinLink? && s.links[l].far.peer == s.links[l].caller
    ensures var t := DoSnapshot(s, l); JoinsCalm(t.a, t.nodes, t.links) && StagesOk(t.a, t.links)
  {
    hide LinkOk, NodesOk, LinksOk, JoinsOk, CallsOk, DeskOk, ReqsOk, TodoOk, HostMap, AllListed, CallersThrough, TasksCalm, MeshesQuiet, JoinIndex;
    OneJoinLink(s, l);
    assert LinkCalm(s.a, s.nodes, s.links[l]);
  }

  lemma SnapshotEntries(s: State, l: LinkId)
    requires TodoOk(s.links) && HostMap(s.a.host, s.nodes, s.links) && CanSnapshot(s, l) && s.links[l].callee == s.a.host
    ensures TodoOk(DoSnapshot(s, l).links)
  {
    var t := DoSnapshot(s, l);
    var peers := s.nodes[s.a.host].peers;
    forall i, m | 0 <= i < |t.links| && t.links[i].far.Announcing? && m in t.links[i].far.todo
      ensures TodoEntry(t.links, t.links[i].far.list, m)
    {
      if i == l {
        var q :| q in peers && peers[q] == m;
        assert HostEntry(s.links, q, m);
      } else {
        assert TodoEntry(s.links, s.links[i].far.list, m);
      }
    }
  }

  lemma SnapshotListed(s: State, l: LinkId)
    requires Safe(s) && CanSnapshot(s, l) && s.links[l].callee == s.a.host && s.links[l].kind.JoinLink?
    requires s.links[l].far.peer == s.links[l].caller && s.links[l].caller !in s.a.lists
    requires AllListed(s.a.lists, s.h.joinLink, s.nodes, s.links) && JoinIndex(s.h.joinLink, s.links)
    requires HostMap(s.a.host, s.nodes, s.links)
    ensures var t := DoSnapshot(s, l); AllListed(t.a.lists, t.h.joinLink, t.nodes, t.links)
  {
    hide Safe;
    var t := DoSnapshot(s, l);
    var peers := s.nodes[s.a.host].peers;
    OwnJoinLink(s, l);
    forall p, q | p in t.a.lists && q in t.a.lists[p] ensures Listed(t.h.joinLink, t.nodes, t.links, p, q) {
      if p == s.links[l].caller {
        assert HostEntry(s.links, q, peers[q]);
        OwnJoinLink(s, peers[q]);
      } else {
        assert Listed(s.h.joinLink, s.nodes, s.links, p, q);
      }
    }
  }

  /** An announcement goes down the open join link of the member listed. */
  lemma AnnounceTo(s: State, l: LinkId, m: LinkId)
    requires Safe(s) && Firm(s) && CanAnnounce(s, l, m)
    ensures var k, j := s.links[l], s.links[m];
            && k.kind.JoinLink? && k.far.peer == k.caller && k.callee == s.a.host
            && m != l && j.kind.JoinLink? && j.callee == s.a.host && j.far.Reading? && !j.cut
    ensures OnLink(s, m)
  {
    hide Safe, QueueOk, JoinIndex, NodesCalm, JoinsCalm, StagesOk, ListsOk, MeshesQuiet, HostMap, CallersThrough;
    FirmAt(s, l);
    AllLinksOk(s, m);
    InListed(s.a, s.links[l]);
    assert TodoEntry(s.links, s.links[l].far.list, m);
    FirmAt(s, m);
    OwnJoinLink(s, m);
    assert Listed(s.h.joinLink, s.nodes, s.links, s.links[l].caller, s.links[m].caller);
  }

  /** One listed member less to tell. */
  lemma ToldOne(s: State, l: LinkId, m: LinkId)
    requires Safe(s) && Firm(s) && CanAnnounce(s, l, m)
    requires s.links[l].kind.JoinLink?
    ensures var k := s.links[l]; var j := k.(far := k.far.(todo := k.far.todo - {m}));
            && JoinsCalm(s.a, s.nodes, s.links[l := j]) && StagesOk(s.a, s.links[l := j]) && TodoOk(s.links[l := j])
            && MeshesQuiet(s.links[l := j]) && JoinIndex(s.h.joinLink, s.links[l := j])
            && HostMap(s.a.host, s.nodes, s.links[l := j]) && CallersThrough(s.h.joinLink, s.links[l := j], s.dials)
  {
    hide Safe, MeshQuiet, AllListed, NodesCalm, TasksCalm, MeshCalm, Delivery;
    var k := s.links[l];
    var j := k.(far := k.far.(todo := k.far.todo - {m}));
    var links := s.links[l := j];
    TodoKept(s.links, l, j);
    assert LinkCalm(s.a, s.nodes, k) && StageOk(s.a, k);
    forall q | q in s.nodes[s.a.host].peers ensures HostEntry(links, q, s.nodes[s.a.host].peers[q]) {
      assert HostEntry(s.links, q, s.nodes[s.a.host].peers[q]);
    }
    assert forall p | Through(s.h.joinLink, s.links, p) :: Through(s.h.joinLink, links, p);
  }

  /** One announcement more on a member's link. */
  lemma Announcement(s: State, m: LinkId, p: PeerId)
    requires JoinsCalm(s.a, s.nodes, s.links) && StagesOk(s.a, s.links) && TodoOk(s.links) && MeshesQuiet(s.links)
    requires JoinIndex(s.h.joinLink, s.links) && HostMap(s.a.host, s.nodes, s.links)
    requires CallersThrough(s.h.joinLink, s.links, s.dials)
    requires m < |s.links| && s.links[m].kind.JoinLink? && s.links[m].far.Reading? && !s.links[m].cut
    ensures var links := s.links[m := Push(s.links[m], Callee, PeerJoined(p))];
            && JoinsCalm(s.a, s.nodes, links) && StagesOk(s.a, links) && TodoOk(links)
            && MeshesQuiet(links) && JoinIndex(s.h.joinLink, links)
            && HostMap(s.a.host, s.nodes, links) && CallersThrough(s.h.joinLink, links, s.dials)
  {
    hide MeshQuiet, MeshCalm;
    var sent := Push(s.links[m], Callee, PeerJoined(p));
    var links := s.links[m := sent];
    assert LinkCalm(s.a, s.nodes, s.links[m]) && StageOk(s.a, s.links[m]);
    MorePeerJoined(s, m, p);
    TodoKept(s.links, m, sent);
    forall q | q in s.nodes[s.a.host].peers ensures HostEntry(links, q, s.nodes[s.a.host].peers[q]) {
      assert HostEntry(s.links, q, s.nodes[s.a.host].peers[q]);
    }
    assert forall q | Through(s.h.joinLink, s.links, q) :: Through(s.h.joinLink, links, q);
  }

  lemma AnnounceListed(s: State, l: LinkId, m: LinkId)
    requires AllListed(s.a.lists, s.h.joinLink, s.nodes, s.links) && JoinIndex(s.h.joinLink, s.links)
    requires CanAnnounce(s, l, m) && m != l && s.links[l].far.peer == s.links[l].caller
    requires EndOf(s.links[m], s.links[l].callee) == Callee && !s.links[m].cut
    ensures var t := DoAnnounce(s, l, m); AllListed(t.a.lists, t.h.joinLink, t.nodes, t.links)
  {
    var t := DoAnnounce(s, l, m);
    forall p, q | p in t.a.lists && q in t.a.lists[p] ensures Listed(t.h.joinLink, t.nodes, t.links, p, q) {
      assert Listed(s.h.joinLink, s.nodes, s.links, p, q);
      assert s.links[s.h.joinLink[p]].caller == p && s.links[s.h.joinLink[q]].caller == q;
    }
  }

  lemma AnnounceFirm(s: State, l: LinkId, m: LinkId)
    requires Safe(s) && Firm(s) && CanAnnounce(s, l, m)
    ensures Firm(DoAnnounce(s, l, m))
  {
    hide Safe, MeshesQuiet, JoinIndex, AllListed, CallersThrough, JoinsCalm, StagesOk, TodoOk, HostMap, TasksCalm, NodesCalm;
    AnnounceTo(s, l, m);
    ToldOne(s, l, m);
    var k := s.links[l];
    var u := PutLink(s, l, k.(far := k.far.(todo := k.far.todo - {m})));
    Announcement(u, m, k.caller);
    AnnounceListed(s, l, m);
    assert DoAnnounce(s, l, m) == PutLink(u, m, Push(u.links[m], Callee, PeerJoined(k.caller)));
  }

  // ----- every steady run -----

  lemma StepFirmJoin(s: State, a: Action)
    requires Safe(s) && Firm(s) && JoinEnabled(s, a) && Safe(JoinApply(s, a))
    ensures Firm(JoinApply(s, a))
  {
    hide Safe, Firm;
    match a
    case JoinStart(n, room) => JoinStartFirm(s, n, room);
    case JoinDial(n, to) => JoinDialFirm(s, n, to);
    case JoinFail(n) => JoinFailFirm(s, n);
    case TakeWelcomeMsg(l) => TakeWelcomeFirm(s, l);
    case JoinRefused(l) => JoinRefusedFirm(s, l);
    case AttachHost(l) => AttachHostFirm(s, l);
    case TakeHello(l, expired) => TakeHelloFirm(s, l, expired);
    case Park(l) => ParkFirm(s, l);
    case Decline(n, q) => DeclineFirm(s, n, q);
    case SendDecline(l) => SendDeclineFirm(s, l);
    case Take(n, q) => TakeFirm(s, n, q);
  }

  lemma StepFirmApproval(s: State, a: Action)
    requires Safe(s) && Firm(s) && ApprovalEnabled(s, a) && Safe(ApprovalApply(s, a))
    ensures Firm(ApprovalApply(s, a))
  {
    hide Safe, Firm;
    match a
    case Snapshot(l) => SnapshotFirm(s, l);
    case Announce(l, m) => AnnounceFirm(s, l, m);
    case Enroll(l) => EnrollFirm(s, l);
    case Greet(l, ok) => GreetFirm(s, l, ok);
    case Admit(l) => AdmitFirm(s, l);
  }

  lemma StepFirmCall(s: State, a: Action)
    requires Safe(s) && Firm(s) && CallEnabled(s, a) && Safe(CallApply(s, a))
    ensures Firm(CallApply(s, a))
  {
    hide Safe, Firm;
    match a
    case Dial(c) => DialFirm(s, c);
    case DialStop(c) => DialGoneFirm(s, c, DoDialStop(s, c));
    case DialLost(c) => DialGoneFirm(s, c, DoDialLost(s, c));
    case TakeMeshHello(l) => TakeMeshHelloFirm(s, l);
    case SeeRoster(l) => HeldFirm(s, l);
    case Expire(l) => HeldFirm(s, l);
    case CheckLinked(l) => HeldFirm(s, l);
    case Ack(l, ok) => AckFirm(s, l, ok);
    case AttachCaller(l) => AttachCallerFirm(s, l);
    case TakeAck(l) => TakeAckFirm(s, l);
    case CallFailed(l) => CallFailedFirm(s, l);
    case BadFirst(l) => BadFirstFirm(s, l);
  }

  /** Nobody says Bye, and the host has no farewell to pass on. */
  lemma NoFarewells(s: State, a: Action)
    requires Firm(s) && (a.TellLeft? || a.SayBye?)
    ensures !RunningEnabled(s, a)
  {
    hide TasksCalm, NodesCalm, JoinsCalm, MeshesQuiet, JoinIndex, StagesOk, TodoOk, HostMap, AllListed, CallersThrough;
  }

  lemma StepFirmRunning(s: State, a: Action)
    requires Safe(s) && Firm(s) && Steady(s, a) && RunningEnabled(s, a) && Safe(RunningApply(s, a))
    ensures Firm(RunningApply(s, a))
  {
    hide Safe, Firm;
    match a
    case Read(l, e) => ReadFirm(s, l, e);
    case Eof(l, e) => EofFirm(s, l, e);
    case CloseGone(l, e) => CloseGoneFirm(s, l, e);
    case DrainNode(n, all) => DrainFirm(s, n, all);
    case Cut(l, i, j) => CutFirm(s, l, i, j);
    case TellLeft(_, _) => NoFarewells(s, a);
    case SayBye(_, _) => NoFarewells(s, a);
    case Leave(_) =>
  }

  lemma StepFirm(s: State, a: Action)
    requires Safe(s) && Firm(s) && Steady(s, a) && Enabled(s, a)
    ensures Firm(Apply(s, a))
  {
    StepSafe(s, a);
    hide Safe, Firm, Steady, JoinEnabled, JoinApply, ApprovalEnabled, ApprovalApply, CallEnabled, CallApply, RunningEnabled, RunningApply;
    if JoinEnabled(s, a) { StepFirmJoin(s, a); }
    else if ApprovalEnabled(s, a) { StepFirmApproval(s, a); }
    else if CallEnabled(s, a) { StepFirmCall(s, a); }
    else { StepFirmRunning(s, a); }
  }

  lemma {:induction false} RunFirm(path: seq<State>, acts: seq<Action>, i: nat)
    requires SteadyRun(path, acts) && i < |path|
    ensures Safe(path[i]) && Firm(path[i])
  {
    hide Safe, Firm, Steady, Enabled, Apply, Init;
    RunSafe(path, acts, i);
    if i == 0 { InitFirm(path[0]); } else {
      RunFirm(path, acts, i - 1);
      StepFirm(path[i - 1], acts[i - 1]);
    }
  }

  /** Every mesh call, whatever stage it is in, and every call about to be made, for the first time or
      again, has been announced to the node it goes to, or its announcement is on the way there. */
  lemma AnnouncedBeforeCall(path: seq<State>, acts: seq<Action>, i: nat)
    requires SteadyRun(path, acts) && i < |path|
    ensures forall l | 0 <= l < |path[i].links| && path[i].links[l].kind.MeshLink? ::
              AnnouncedTo(path[i], path[i].links[l].caller, path[i].links[l].callee)
    ensures forall c | c in path[i].dials :: AnnouncedTo(path[i], c.from, c.to)
  {
    hide Enabled, Apply, Safe, Firm, AnnouncedTo, Steady, Init;
    RunFirm(path, acts, i);
    var s := path[i];
    forall l | 0 <= l < |s.links| && s.links[l].kind.MeshLink? ensures AnnouncedTo(s, s.links[l].caller, s.links[l].callee) {
      MeshListed(s, l);
      AnnouncedPair(s, s.links[l].caller, s.links[l].callee);
    }
    forall c | c in s.dials ensures AnnouncedTo(s, c.from, c.to) {
      DialListed(s, c);
      AnnouncedPair(s, c.from, c.to);
    }
  }

  lemma MeshListed(s: State, l: LinkId)
    requires Safe(s) && Firm(s) && l < |s.links| && s.links[l].kind.MeshLink?
    ensures var k := s.links[l]; k.caller in s.a.lists && k.callee in s.a.lists[k.caller] && Through(s.h.joinLink, s.links, k.caller)
  {
    hide Safe, Firm, QueueOk, NearOk, FarOk, Through, NodesCalm, ListsOk;
    AllLinksOk(s, l);
    FirmAt(s, l);
  }

  lemma DialListed(s: State, c: Call)
    requires Safe(s) && Firm(s) && c in s.dials
    ensures c.from in s.a.lists && c.to in s.a.lists[c.from] && Through(s.h.joinLink, s.links, c.from)
  {
    hide ListsOk, NodesOk, LinksOk, EndsOk, JoinsOk, DeskOk, ReqsOk, TasksCalm, NodesCalm, JoinsCalm, MeshesQuiet, JoinIndex,
      StagesOk, TodoOk, HostMap, AllListed, Through;
    assert CallOk(s.a, c);
  }

  lemma AnnouncedPair(s: State, p: PeerId, q: PeerId)
    requires Safe(s) && Firm(s) && p in s.a.lists && q in s.a.lists[p] && Through(s.h.joinLink, s.links, p)
    ensures AnnouncedTo(s, p, q)
  {
    hide NodesOk, LinksOk, EndsOk, JoinsOk, DeskOk, ReqsOk, CallsOk, TasksCalm, NodesCalm, JoinsCalm, MeshesQuiet, TodoOk, HostMap,
      CallersThrough;
    assert Listed(s.h.joinLink, s.nodes, s.links, p, q);
    AcceptedLink(s, s.h.joinLink[q]);
  }
}
