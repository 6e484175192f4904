/** What every reachable state keeps as long as nobody departs, no link fails and no grace
    period runs out. Approvals may overlap in any way. Every pair of a newcomer and a listed
    member is in exactly one stage on its way to a direct link. */
module MeshWeave {
  import opened MeshNode
  import opened MeshModel
  import opened MeshSafety

  /** Nobody leaves, nothing breaks, no held call is given up. Declines and refusals are allowed. */
  ghost predicate Calm(a: Action) { !(a.Leave? || a.Cut? || a.Expire? || a.DialLost?) }

  function Other(k: Link, e: End): PeerId { if e.Caller? then k.callee else k.caller }

  // ----- the invariant -----

  ghost predicate TasksCalm(host: PeerId, nodes: map<PeerId, NodeState>, joining: set<PeerId>, drains: set<(PeerId, bool)>) {
    && (forall n | n in joining :: n in nodes && nodes[n].running)
    && (forall d | d in drains :: !d.1 && d.0 != host && d.0 in nodes && !nodes[d.0].running && !nodes[d.0].role.Idle?)
  }

  ghost predicate NoFarewell(byes: set<(LinkId, End)>, lefts: set<(LinkId, PeerId)>, dials: set<Call>) {
    byes == {} && lefts == {} && forall c | c in dials :: c.attempt == 0
  }

  ghost predicate NodesCalm(a: Approvals, nodes: map<PeerId, NodeState>) {
    && a.host in nodes && nodes[a.host].running
    && forall n | n in a.accepted :: n in nodes && nodes[n].running && nodes[n].room == nodes[a.host].room
  }

  ghost predicate AllJoined(q: seq<Msg>) { forall i | 0 <= i < |q| :: q[i].PeerJoined? }

  ghost predicate Waiting(far: Phase) { far.Checked? || far.Parked? || far.Declining? || Approving(far) }

  ghost predicate Approving(far: Phase) { far.Taken? || far.Announcing? || far.Greeting? }

  ghost predicate Welcomed(far: Phase) { far.Admitting? || far.Reading? }

  ghost predicate JoinCalm(a: Approvals, room: Room, ns: NodeState, k: Link) {
    if k.far.Ended? then k.cut && (k.near.AwaitWelcome? || k.near.Ended?) && k.caller !in a.accepted
    else !k.cut && ns.running && JoinStage(a, room, ns, k)
  }

  ghost predicate JoinStage(a: Approvals, room: Room, ns: NodeState, k: Link) {
    if k.far.Fresh? then k.near.AwaitWelcome? && k.up == [Hello(ns.room, k.caller)] && k.down == []
    else
      && k.up == [] && ns.room == room
      && (Waiting(k.far) || Welcomed(k.far))
      && (Waiting(k.far) ==> k.near.AwaitWelcome? && k.down == [])
      && (Welcomed(k.far) ==> Delivery(a, room, k))
  }

  /** Welcome comes first on the wire, then only announcements. */
  ghost predicate Delivery(a: Approvals, room: Room, k: Link) {
    if k.near.AwaitWelcome? then
      k.down != [] && k.down[0].Welcome? && k.down[0].room == room && AllJoined(k.down[1..])
    else (k.near.HostAttach? || k.near.Reading?) && AllJoined(k.down)
  }

  ghost predicate Called(far: Phase) { far.Held? || far.Seen? || far.Acking? }

  ghost predicate Acked(far: Phase) { far.CallerAttach? || far.Reading? }

  ghost predicate MeshCalm(room: Room, k: Link) {
    && !k.cut
    && (if k.near.AwaitAck? then
          k.near.attempt == 0 &&
          if Acked(k.far) then k.up == [] && k.down == [MeshAck(k.callee)]
          else k.down == [] && if k.far.Fresh? then k.up == [MeshHello(room, k.caller)] else Called(k.far) && k.up == []
        else k.near.Reading? && Acked(k.far) && k.up == [] && k.down == [])
  }

  ghost predicate LinkCalm(a: Approvals, nodes: map<PeerId, NodeState>, k: Link) {
    a.host in nodes && k.caller in nodes &&
    if k.kind.JoinLink? then JoinCalm(a, nodes[a.host].room, nodes[k.caller], k) else MeshCalm(nodes[a.host].room, k)
  }

  ghost predicate LinksCalm(a: Approvals, nodes: map<PeerId, NodeState>, links: seq<Link>) {
    forall l | 0 <= l < |links| :: LinkCalm(a, nodes, links[l])
  }

  ghost predicate JoinIndex(joinLink: map<PeerId, LinkId>, links: seq<Link>) {
    forall n | n in joinLink ::
      joinLink[n] < |links| && links[joinLink[n]].kind.JoinLink? && links[joinLink[n]].caller == n
  }

  ghost predicate MeshIndex(meshLink: map<(PeerId, PeerId), LinkId>, links: seq<Link>) {
    && (forall p | p in meshLink ::
          var l := meshLink[p]; l < |links| && links[l].kind.MeshLink? && links[l].caller == p.0 && links[l].callee == p.1)
    && (forall l | 0 <= l < |links| && links[l].kind.MeshLink? ::
          (links[l].caller, links[l].callee) in meshLink && meshLink[(links[l].caller, links[l].callee)] == l)
  }

  /** How far an approval has got is visible on the newcomer's join link. */
  ghost predicate StageOk(a: Approvals, k: Link) {
    k.kind.JoinLink? ==>
      && (k.caller in a.accepted ==> k.far.Taken? || k.far.Announcing? || k.far.Greeting? || Welcomed(k.far))
      && (k.caller in a.lists ==> !k.far.Taken?)
  }

  ghost predicate StagesOk(a: Approvals, links: seq<Link>) { forall l | 0 <= l < |links| :: StageOk(a, links[l]) }

  /** A thread is reading at an end exactly when the link is in that node's map. */
  ghost predicate EntryOk(nodes: map<PeerId, NodeState>, l: LinkId, k: Link, e: End) {
    NodeAt(k, e) in nodes &&
    var peers := nodes[NodeAt(k, e)].peers;
    if PhaseAt(k, e).Reading? then Other(k, e) in peers && peers[Other(k, e)] == l else Other(k, e) !in peers
  }

  ghost predicate EntriesOk(nodes: map<PeerId, NodeState>, links: seq<Link>) {
    forall l | 0 <= l < |links| :: EntryOk(nodes, l, links[l], Caller) && EntryOk(nodes, l, links[l], Callee)
  }

  ghost predicate Backed(links: seq<Link>, n: PeerId, q: PeerId, l: LinkId) {
    l < |links| &&
    ((links[l].callee == n && links[l].caller == q && links[l].far.Reading?) ||
     (links[l].caller == n && links[l].callee == q && links[l].near.Reading?))
  }

  ghost predicate BackOk(nodes: map<PeerId, NodeState>, links: seq<Link>) {
    forall n, q | n in nodes && q in nodes[n].peers :: Backed(links, n, q, nodes[n].peers[q])
  }

  /** An announcement still to be sent goes down the join link of a listed member. */
  ghost predicate TodoEntry(links: seq<Link>, list: set<PeerId>, m: LinkId) {
    m < |links| && links[m].kind.JoinLink? && links[m].caller in list
  }

  ghost predicate TodoOk(links: seq<Link>) {
    forall l, m | 0 <= l < |links| && links[l].far.Announcing? && m in links[l].far.todo ::
      TodoEntry(links, links[l].far.list, m)
  }

  /** Member `q` knows newcomer `p`, or the host's PeerJoined for it is already queued. */
  ghost predicate Announced(nodes: map<PeerId, NodeState>, k: Link, p: PeerId) {
    (k.caller in nodes && p in nodes[k.caller].roster) || PeerJoined(p) in k.down
  }

  ghost predicate Undelivered(near: Phase) { near.AwaitWelcome? || near.HostAttach? }

  /** Newcomer `p` was handed member `q`. */
  ghost predicate PairOk(joinLink: map<PeerId, LinkId>, meshLink: map<(PeerId, PeerId), LinkId>,
                         nodes: map<PeerId, NodeState>, links: seq<Link>, dials: set<Call>, p: PeerId, q: PeerId) {
    p in joinLink && q in joinLink && joinLink[p] < |links| && joinLink[q] < |links| &&
    var kp, kq := links[joinLink[p]], links[joinLink[q]];
    && kq.far.Reading?
    && ((kp.far.Announcing? && joinLink[q] in kp.far.todo) || Announced(nodes, kq, p))
    && (if Undelivered(kp.near) then Call(p, q, 0) !in dials && (p, q) !in meshLink
        else Call(p, q, 0) in dials <==> (p, q) !in meshLink)
  }

  ghost predicate PairsOk(lists: map<PeerId, set<PeerId>>, h: History, nodes: map<PeerId, NodeState>, links: seq<Link>, dials: set<Call>) {
    forall p, q | p in lists && q in lists[p] :: PairOk(h.joinLink, h.meshLink, nodes, links, dials, p, q)
  }

  ghost predicate Weave(s: State) {
    && TasksCalm(s.a.host, s.nodes, s.joining, s.drains) && NoFarewell(s.byes, s.lefts, s.dials)
    && NodesCalm(s.a, s.nodes) && LinksCalm(s.a, s.nodes, s.links)
    && JoinIndex(s.h.joinLink, s.links) && MeshIndex(s.h.meshLink, s.links) && StagesOk(s.a, s.links)
    && EntriesOk(s.nodes, s.links) && BackOk(s.nodes, s.links)
    && TodoOk(s.links) && PairsOk(s.a.lists, s.h, s.nodes, s.links, s.dials)
  }

  lemma InitWeave(s: State)
    requires Init(s)
    ensures Weave(s)
  {
  }

  // ----- framing -----

  ghost predicate SameShape(x: NodeState, y: NodeState) {
    x.roster <= y.roster && y.running == x.running && y.room == x.room && y.role == x.role
  }

  /** A node change that touches neither its links nor what others rely on. */
  ghost predicate QuietNode(x: NodeState, y: NodeState) { SameShape(x, y) && y.peers == x.peers }

  lemma QuietNodeWeave(s: State, n: PeerId, ns: NodeState)
    requires Weave(s) && n in s.nodes && QuietNode(s.nodes[n], ns)
    ensures Weave(PutNode(s, n, ns))
  {
    hide JoinIndex, MeshIndex, StagesOk, TodoOk, NoFarewell, MeshCalm, Backed, Safe;
    var t := PutNode(s, n, ns);
    assert LinksCalm(t.a, t.nodes, t.links) by { QuietNodeLinks(s, n, ns); }
    assert PairsOk(t.a.lists, t.h, t.nodes, t.links, t.dials) by { QuietNodePairs(s, n, ns); }
    assert EntriesOk(t.nodes, t.links) && BackOk(t.nodes, t.links) by { QuietNodeEntries(s, n, ns); }
  }

  lemma QuietNodeLinks(s: State, n: PeerId, ns: NodeState)
    requires LinksCalm(s.a, s.nodes, s.links) && n in s.nodes && SameShape(s.nodes[n], ns)
    ensures LinksCalm(s.a, s.nodes[n := ns], s.links)
  {
    hide MeshCalm, Delivery;
  }

  lemma QuietNodePairs(s: State, n: PeerId, ns: NodeState)
    requires PairsOk(s.a.lists, s.h, s.nodes, s.links, s.dials) && n in s.nodes && SameShape(s.nodes[n], ns)
    ensures PairsOk(s.a.lists, s.h, s.nodes[n := ns], s.links, s.dials)
  {
    forall p, q | p in s.a.lists && q in s.a.lists[p] ensures PairOk(s.h.joinLink, s.h.meshLink, s.nodes[n := ns], s.links, s.dials, p, q) {
      assert PairOk(s.h.joinLink, s.h.meshLink, s.nodes, s.links, s.dials, p, q);
    }
  }

  lemma QuietNodeEntries(s: State, n: PeerId, ns: NodeState)
    requires EntriesOk(s.nodes, s.links) && BackOk(s.nodes, s.links) && n in s.nodes && QuietNode(s.nodes[n], ns)
    ensures EntriesOk(s.nodes[n := ns], s.links) && BackOk(s.nodes[n := ns], s.links)
  {
    hide Backed;
  }

  ghost predicate SameReading(k: Link, j: Link) {
    SameEnds(k, j) && (j.near.Reading? <==> k.near.Reading?) && (j.far.Reading? <==> k.far.Reading?)
  }

  ghost predicate FewerTodo(k: Link, j: Link) {
    SameEnds(k, j) &&
    (j.far.Announcing? ==> k.far.Announcing? && j.far.list == k.far.list && j.far.todo <= k.far.todo)
  }

  /** A link change no pair of newcomer and member can notice. */
  ghost predicate PairQuiet(k: Link, j: Link) {
    && FewerTodo(k, j) && (k.far.Reading? ==> j.far.Reading?)
    && (Undelivered(j.near) <==> Undelivered(k.near))
    && (forall p | PeerJoined(p) in k.down :: PeerJoined(p) in j.down)
    && (k.far.Announcing? ==> j.far == k.far || k.far.todo == {})
  }

  ghost predicate QuietLink(k: Link, j: Link) { SameReading(k, j) && PairQuiet(k, j) }

  lemma QuietLinkWeave(s: State, l: LinkId, j: Link)
    requires Weave(s) && l < |s.links| && QuietLink(s.links[l], j)
    requires LinkCalm(s.a, s.nodes, j) && StageOk(s.a, j)
    ensures Weave(PutLink(s, l, j))
  {
    hide TasksCalm, NoFarewell, NodesCalm, LinkCalm, StageOk, Backed, EntryOk;
    var t := PutLink(s, l, j);
    EntriesKept(s, l, j);
    QuietLinkPairs(s, l, j);
    assert TodoOk(t.links) by { TodoKept(s.links, l, j); }
  }

  lemma TodoKept(links: seq<Link>, l: LinkId, j: Link)
    requires TodoOk(links) && l < |links| && FewerTodo(links[l], j)
    ensures TodoOk(links[l := j])
  {
    var next := links[l := j];
    forall i, m | 0 <= i < |next| && next[i].far.Announcing? && m in next[i].far.todo
      ensures TodoEntry(next, next[i].far.list, m)
    {
      assert m in links[i].far.todo;
      assert TodoEntry(links, links[i].far.list, m);
    }
  }

  lemma EntriesKept(s: State, l: LinkId, j: Link)
    requires EntriesOk(s.nodes, s.links) && BackOk(s.nodes, s.links) && l < |s.links| && SameReading(s.links[l], j)
    ensures EntriesOk(s.nodes, s.links[l := j]) && BackOk(s.nodes, s.links[l := j])
  {
  }

  lemma QuietLinkPairs(s: State, l: LinkId, j: Link)
    requires PairsOk(s.a.lists, s.h, s.nodes, s.links, s.dials) && l < |s.links| && PairQuiet(s.links[l], j)
    ensures PairsOk(s.a.lists, s.h, s.nodes, s.links[l := j], s.dials)
  {
    forall p, q | p in s.a.lists && q in s.a.lists[p] ensures PairOk(s.h.joinLink, s.h.meshLink, s.nodes, s.links[l := j], s.dials, p, q) {
      assert PairOk(s.h.joinLink, s.h.meshLink, s.nodes, s.links, s.dials, p, q);
    }
  }

  lemma WeaveAt(s: State, l: LinkId)
    requires Safe(s) && Weave(s) && OnLink(s, l)
    ensures LinkOk(s.a, s.links[l]) && LinkCalm(s.a, s.nodes, s.links[l]) && StageOk(s.a, s.links[l])
    ensures EntryOk(s.nodes, l, s.links[l], Caller) && EntryOk(s.nodes, l, s.links[l], Callee)
    ensures ListsOk(s.a) && NodesCalm(s.a, s.nodes)
  {
    hide LinkOk, LinkCalm, StageOk, EntryOk, ListsOk, NodesCalm, NodesOk, JoinsOk, DeskOk, ReqsOk, PairsOk, TodoOk, BackOk;
  }

  // ----- steps that change one link quietly -----

  lemma TakeWelcomeWeave(s: State, l: LinkId)
    requires Safe(s) && Weave(s) && CanTakeWelcome(s, l)
    ensures Weave(DoTakeWelcome(s, l))
  {
    hide Safe, Weave, ListsOk, NodesCalm, EntryOk;
    var k := s.links[l];
    var m := k.down[0];
    WeaveAt(s, l);
    WelcomeFound(s, l);
    QuietNodeWeave(s, k.caller, TakeWelcome(s.nodes[k.caller], m.room, m.host, m.peers));
    var j := Pop(k, Caller).(near := HostAttach(m.host, m.peers));
    assert forall p | PeerJoined(p) in k.down :: PeerJoined(p) in j.down;
    QuietLinkWeave(PutNode(s, k.caller, TakeWelcome(s.nodes[k.caller], m.room, m.host, m.peers)), l, j);
  }

  /** A Welcome is only found on the join link of an admitted newcomer, with the room's code. */
  lemma WelcomeFound(s: State, l: LinkId)
    requires Safe(s) && Weave(s) && CanTakeWelcome(s, l)
    ensures var k := s.links[l];
      k.kind.JoinLink? && Welcomed(k.far) && k.down[0].room == s.nodes[k.caller].room && AllJoined(k.down[1..])
  {
    hide Safe, Weave, EntryOk;
    WeaveAt(s, l);
    assert MsgOk(s.a, s.links[l].kind, s.links[l].caller, s.links[l].callee, false, s.links[l].down[0]);
  }

  lemma TakeHelloWeave(s: State, l: LinkId, expired: bool)
    requires Safe(s) && Weave(s) && CanTakeHello(s, l)
    ensures Weave(DoTakeHello(s, l, expired))
  {
    hide Weave, LinksOk, EndsOk, JoinsOk, CallsOk, DeskOk, ReqsOk, QueueOk, EntryOk;
    var k := s.links[l];
    WeaveAt(s, l);
    assert NodeOk(s.a, k.callee, s.nodes[k.callee]);
    QuietLinkWeave(s, l, DoTakeHello(s, l, expired).links[l]);
  }

  lemma ParkWeave(s: State, l: LinkId)
    requires Safe(s) && Weave(s) && CanPark(s, l)
    ensures Weave(DoPark(s, l))
  {
    hide Safe, Weave, EntryOk, ListsOk, NodesCalm, QueueOk;
    var k := s.links[l];
    var ns := s.nodes[k.callee];
    WeaveAt(s, l);
    QuietNodeWeave(s, k.callee, ParkRequest(ns, k.far.peer, l));
    QuietLinkWeave(PutNode(s, k.callee, ParkRequest(ns, k.far.peer, l)), l, k.(far := Parked(ns.nextReq, k.far.peer)));
  }

  /** Removing a request and moving its link on, before any new approval is recorded. */
  lemma DecideWeave(s: State, n: PeerId, req: Req, far: Phase)
    requires Safe(s) && Weave(s) && CanDecide(s, n, req) && far == Declining(req)
    ensures var l := s.nodes[n].pending[req].link;
      Weave(PutLink(PutNode(s, n, RemoveRequest(s.nodes[n], req)), l, s.links[l].(far := far)))
  {
    hide Safe, Weave, EntryOk, NodesCalm, QueueOk;
    DeskEntry(s, n, req);
    var l := s.nodes[n].pending[req].link;
    WeaveAt(s, l);
    QuietNodeWeave(s, n, RemoveRequest(s.nodes[n], req));
    QuietLinkWeave(PutNode(s, n, RemoveRequest(s.nodes[n], req)), l, s.links[l].(far := far));
  }

  lemma SendDeclineWeave(s: State, l: LinkId)
    requires Safe(s) && Weave(s) && CanSendDecline(s, l)
    ensures Weave(DoSendDecline(s, l))
  {
    hide Safe, Weave, EntryOk, NodesCalm, QueueOk;
    WeaveAt(s, l);
    QuietLinkWeave(s, l, Refuse(s.links[l]));
    AnswersWeave(PutLink(s, l, Refuse(s.links[l])), DoSendDecline(s, l));
  }

  lemma AnswersWeave(s: State, t: State)
    requires Weave(s) && t == s.(h := s.h.(answers := t.h.answers))
    ensures Weave(t)
  {
    hide PairOk, TasksCalm, LinksCalm, EntriesOk;
  }

  lemma TakeWeave(s: State, n: PeerId, req: Req)
    requires Safe(s) && Weave(s) && CanDecide(s, n, req)
    ensures Weave(DoTake(s, n, req))
  {
    hide Safe, Weave, EntryOk, QueueOk, StageOk, LinkCalm, NodesCalm, LinkOk, ListsOk;
    DeskEntry(s, n, req);
    var l := s.nodes[n].pending[req].link;
    var k := s.links[l];
    WeaveAt(s, l);
    ParkedAsking(s.a, k);
    OneJoinLink(s, l);
    QuietNodeWeave(s, n, RemoveRequest(s.nodes[n], req));
    TakeLinkWeave(PutNode(s, n, RemoveRequest(s.nodes[n], req)), l, req);
  }

  lemma OneJoinLink(s: State, l: LinkId)
    requires Safe(s) && l < |s.links| && s.links[l].kind.JoinLink?
    ensures forall m | 0 <= m < |s.links| && m != l && s.links[m].kind.JoinLink? :: s.links[m].caller != s.links[l].caller
  {
    hide LinkOk, NodesOk, ListsOk, JoinsOk, DeskOk, ReqsOk, LinksOk;
  }

  lemma TakeLinkWeave(s: State, l: LinkId, req: Req)
    requires Weave(s) && l < |s.links| && s.links[l].far == Parked(req, s.links[l].caller)
    requires s.links[l].kind.JoinLink? && ListsOk(s.a) && s.links[l].caller !in s.a.accepted
    requires forall m | 0 <= m < |s.links| && m != l && s.links[m].kind.JoinLink? :: s.links[m].caller != s.links[l].caller
    ensures var k := s.links[l];
      Weave(PutLink(s, l, k.(far := Taken(req, k.caller))).(a := s.a.(accepted := s.a.accepted + {k.caller})))
  {
    hide TodoOk, JoinIndex, MeshIndex, EntriesOk, BackOk, PairsOk, NoFarewell, MeshCalm, TasksCalm;
    var k := s.links[l];
    var j := k.(far := Taken(req, k.caller));
    var t := PutLink(s, l, j).(a := s.a.(accepted := s.a.accepted + {k.caller}));
    EntriesKept(s, l, j);
    QuietLinkPairs(s, l, j);
    TodoKept(s.links, l, j);
    assert LinkCalm(s.a, s.nodes, k);
    assert JoinIndex(s.h.joinLink, t.links) && MeshIndex(s.h.meshLink, t.links) by { SameIndex(s, l, j); }
  }

  lemma SameIndex(s: State, l: LinkId, j: Link)
    requires JoinIndex(s.h.joinLink, s.links) && MeshIndex(s.h.meshLink, s.links) && l < |s.links| && SameEnds(s.links[l], j)
    ensures JoinIndex(s.h.joinLink, s.links[l := j]) && MeshIndex(s.h.meshLink, s.links[l := j])
  {
  }

  lemma EnrollWeave(s: State, l: LinkId)
    requires Safe(s) && Weave(s) && CanEnroll(s, l)
    ensures Weave(DoEnroll(s, l))
  {
    hide Safe, Weave, EntryOk, NodesCalm, QueueOk;
    WeaveAt(s, l);
    var k := s.links[l];
    QuietNodeWeave(s, k.callee, AddToRoster(s.nodes[k.callee], k.far.peer));
    QuietLinkWeave(PutNode(s, k.callee, AddToRoster(s.nodes[k.callee], k.far.peer)), l,
                   k.(far := Greeting(k.far.req, k.far.peer, k.far.list)));
  }

  lemma GreetWeave(s: State, l: LinkId, ok: bool)
    requires Safe(s) && Weave(s) && CanGreet(s, l, ok)
    ensures Weave(DoGreet(s, l, ok))
  {
    hide Safe, Weave, EntryOk, QueueOk;
    WeaveAt(s, l);
    var k := s.links[l];
    var j := DoGreet(s, l, ok).links[l];
    assert ok && j.down == [Welcome(s.nodes[k.callee].room, k.callee, k.far.list)];
    QuietLinkWeave(s, l, j);
    AnswersWeave(PutLink(s, l, j), DoGreet(s, l, ok));
  }

  lemma TakeMeshHelloWeave(s: State, l: LinkId)
    requires Safe(s) && Weave(s) && CanTakeMeshHello(s, l)
    ensures Weave(DoTakeMeshHello(s, l))
  {
    hide Safe, Weave, EntryOk, QueueOk;
    WeaveAt(s, l);
    QuietLinkWeave(s, l, DoTakeMeshHello(s, l).links[l]);
  }

  lemma SeeRosterWeave(s: State, l: LinkId)
    requires Safe(s) && Weave(s) && CanSeeRoster(s, l)
    ensures Weave(DoSeeRoster(s, l))
  {
    hide Safe, Weave, EntryOk, QueueOk, ListsOk, NodesCalm;
    WeaveAt(s, l);
    QuietLinkWeave(s, l, DoSeeRoster(s, l).links[l]);
  }

  /** A call that was let through is never answered "already linked". */
  lemma CheckLinkedWeave(s: State, l: LinkId)
    requires Safe(s) && Weave(s) && CanCheckLinked(s, l)
    ensures Weave(DoCheckLinked(s, l))
  {
    hide Safe, Weave, QueueOk, ListsOk, NodesCalm;
    WeaveAt(s, l);
    QuietLinkWeave(s, l, DoCheckLinked(s, l).links[l]);
  }

  lemma AckWeave(s: State, l: LinkId, ok: bool)
    requires Safe(s) && Weave(s) && CanAck(s, l, ok)
    ensures Weave(DoAck(s, l, ok))
  {
    hide Safe, Weave, EntryOk, QueueOk, ListsOk, NodesCalm;
    WeaveAt(s, l);
    QuietLinkWeave(s, l, DoAck(s, l, ok).links[l]);
  }

  // ----- joining -----

  /** A node nobody knows is in no map and on no list, and its own state changes freely. */
  lemma StrangerWeave(s: State, n: PeerId, ns: NodeState, joining: set<PeerId>, drains: set<(PeerId, bool)>)
    requires Safe(s) && Weave(s) && n in s.nodes && !Known(s.a, n) && ns.peers == map[]
    requires forall l | 0 <= l < |s.links| && s.links[l].kind.JoinLink? && s.links[l].caller == n :: s.links[l].far.Ended?
    requires TasksCalm(s.a.host, s.nodes[n := ns], joining, drains)
    ensures Weave(PutNode(s, n, ns).(joining := joining, drains := drains))
  {
    hide LinkOk, ListsOk, JoinsOk, DeskOk, ReqsOk, MeshCalm, JoinStage, JoinIndex, MeshIndex, StagesOk, TodoOk, Backed,
      NoFarewell, CallsOk, EndsOk;
    assert NodeOk(s.a, n, s.nodes[n]);
    assert BackOk(s.nodes[n := ns], s.links);
    assert EntriesOk(s.nodes[n := ns], s.links) by { StrangerEntries(s, n, ns); }
    assert PairsOk(s.a.lists, s.h, s.nodes[n := ns], s.links, s.dials) by { StrangerPairs(s, n, ns); }
  }

  lemma StrangerEntries(s: State, n: PeerId, ns: NodeState)
    requires EntriesOk(s.nodes, s.links) && n in s.nodes && s.nodes[n].peers == map[] && ns.peers == map[]
    ensures EntriesOk(s.nodes[n := ns], s.links)
  {
  }

  lemma StrangerPairs(s: State, n: PeerId, ns: NodeState)
    requires PairsOk(s.a.lists, s.h, s.nodes, s.links, s.dials) && n in s.nodes && n !in s.a.accepted
    requires ListsOk(s.a) && JoinIndex(s.h.joinLink, s.links)
    ensures PairsOk(s.a.lists, s.h, s.nodes[n := ns], s.links, s.dials)
  {
    forall p, q | p in s.a.lists && q in s.a.lists[p]
      ensures PairOk(s.h.joinLink, s.h.meshLink, s.nodes[n := ns], s.links, s.dials, p, q)
    {
      assert PairOk(s.h.joinLink, s.h.meshLink, s.nodes, s.links, s.dials, p, q);
    }
  }

  lemma JoinStartWeave(s: State, n: PeerId, room: Room)
    requires Safe(s) && Weave(s) && CanJoinStart(s, n)
    ensures Weave(DoJoinStart(s, n, room))
  {
    hide LinksOk, ListsOk, CallsOk, DeskOk, ReqsOk, LinksCalm, NodesCalm, StagesOk, EntriesOk, BackOk, TodoOk, PairsOk,
      MeshIndex, NoFarewell, JoinIndex;
    assert NodeOk(s.a, n, s.nodes[n]);
    HostThere(s);
    assert NodeOk(s.a, s.a.host, s.nodes[s.a.host]);
    StrangerWeave(s, n, StartJoin(s.nodes[n], room), s.joining + {n}, s.drains);
  }

  lemma JoinFailWeave(s: State, n: PeerId)
    requires Safe(s) && Weave(s) && CanJoinFail(s, n)
    ensures Weave(DoJoinFail(s, n))
  {
    hide LinksOk, ListsOk, CallsOk, DeskOk, ReqsOk, LinksCalm, NodesCalm, StagesOk, EntriesOk, BackOk, TodoOk, PairsOk,
      MeshIndex, NoFarewell, JoinIndex;
    assert NodeOk(s.a, n, s.nodes[n]);
    StrangerWeave(s, n, Stop(s.nodes[n]), s.joining - {n}, s.drains + {(n, false)});
  }

  /** Only a joiner that was turned away sees its wait for the host end. */
  lemma RefusedStranger(s: State, l: LinkId)
    requires Safe(s) && Weave(s) && CanJoinRefused(s, l)
    ensures var k := s.links[l]; k.kind.JoinLink? && k.far.Ended? && k.cut && !Known(s.a, k.caller)
  {
    hide Safe, Weave, EntryOk, QueueOk;
    WeaveAt(s, l);
    JoinersAreNotHost(s, l);
  }

  lemma JoinersAreNotHost(s: State, l: LinkId)
    requires Safe(s) && l < |s.links| && s.links[l].kind.JoinLink?
    ensures s.links[l].caller != s.a.host
  {
    hide LinkOk, NodesOk, ListsOk, DeskOk, ReqsOk, LinksOk;
  }

  lemma RefusedLink(s: State, l: LinkId)
    requires Safe(s) && Weave(s) && CanJoinRefused(s, l)
    ensures Weave(PutLink(s, l, Close(s.links[l]).(near := Ended, down := [])))
  {
    hide TasksCalm, NoFarewell, NodesCalm, NodesOk, LinksOk, EndsOk, JoinsOk, CallsOk, DeskOk, ReqsOk,
      TodoOk, EntriesOk, BackOk, PairsOk, JoinIndex, MeshIndex;
    var k := s.links[l];
    var j := Close(k).(near := Ended, down := []);
    WeaveAt(s, l);
    RefusedStranger(s, l);
    SameIndex(s, l, j);
    RefusedPairs(s, l, j);
    TodoKept(s.links, l, j);
    EntriesKept(s, l, j);
    assert LinkCalm(s.a, s.nodes, j) && StageOk(s.a, j);
  }

  lemma RefusedPairs(s: State, l: LinkId, j: Link)
    requires PairsOk(s.a.lists, s.h, s.nodes, s.links, s.dials) && l < |s.links| && JoinIndex(s.h.joinLink, s.links)
    requires s.links[l].caller !in s.a.accepted && ListsOk(s.a)
    ensures PairsOk(s.a.lists, s.h, s.nodes, s.links[l := j], s.dials)
  {
    forall p, q | p in s.a.lists && q in s.a.lists[p]
      ensures PairOk(s.h.joinLink, s.h.meshLink, s.nodes, s.links[l := j], s.dials, p, q)
    {
      assert PairOk(s.h.joinLink, s.h.meshLink, s.nodes, s.links, s.dials, p, q);
      assert s.links[s.h.joinLink[p]].caller == p && s.links[s.h.joinLink[q]].caller == q;
    }
  }

  lemma JoinRefusedWeave(s: State, l: LinkId)
    requires Safe(s) && Weave(s) && CanJoinRefused(s, l)
    ensures Weave(DoJoinRefused(s, l))
  {
    hide LinksOk, ListsOk, CallsOk, DeskOk, ReqsOk, LinksCalm, NodesCalm, StagesOk, EntriesOk, BackOk, TodoOk, PairsOk,
      MeshIndex, NoFarewell, JoinIndex, EntryOk, StageOk;
    var k := s.links[l];
    WeaveAt(s, l);
    RefusedStranger(s, l);
    OneJoinLink(s, l);
    RefusedLink(s, l);
    var j := Close(k).(near := Ended, down := []);
    assert LinkOk(s.a, j);
    LinkSafe(s, l, j);
    assert NodeOk(s.a, k.caller, s.nodes[k.caller]);
    StrangerWeave(PutLink(s, l, j), k.caller, Stop(s.nodes[k.caller]), s.joining, s.drains + {(k.caller, false)});
  }

  // ----- new links -----

  /** A link whose threads are still at their first receive. */
  lemma AppendParts(s: State, k: Link)
    requires LinksCalm(s.a, s.nodes, s.links) && StagesOk(s.a, s.links) && TodoOk(s.links)
    requires EntriesOk(s.nodes, s.links) && BackOk(s.nodes, s.links)
    requires LinkCalm(s.a, s.nodes, k) && StageOk(s.a, k) && k.far.Fresh? && !k.near.Reading?
    requires EntryOk(s.nodes, |s.links|, k, Caller) && EntryOk(s.nodes, |s.links|, k, Callee)
    ensures var links := s.links + [k];
      LinksCalm(s.a, s.nodes, links) && StagesOk(s.a, links) && TodoOk(links) && EntriesOk(s.nodes, links) && BackOk(s.nodes, links)
  {
    hide LinkCalm, StageOk, EntryOk;
    var links := s.links + [k];
    forall i, m | 0 <= i < |links| && links[i].far.Announcing? && m in links[i].far.todo
      ensures TodoEntry(links, links[i].far.list, m)
    {
      assert TodoEntry(s.links, s.links[i].far.list, m);
    }
    forall n, q | n in s.nodes && q in s.nodes[n].peers ensures Backed(links, n, q, s.nodes[n].peers[q]) {
      assert Backed(s.links, n, q, s.nodes[n].peers[q]);
    }
  }

  lemma AppendPairs(s: State, k: Link, joinLink: map<PeerId, LinkId>)
    requires PairsOk(s.a.lists, s.h, s.nodes, s.links, s.dials)
    requires forall p | p in s.h.joinLink :: p in joinLink && joinLink[p] == s.h.joinLink[p]
    ensures PairsOk(s.a.lists, s.h.(joinLink := joinLink), s.nodes, s.links + [k], s.dials)
  {
    forall p, q | p in s.a.lists && q in s.a.lists[p]
      ensures PairOk(joinLink, s.h.meshLink, s.nodes, s.links + [k], s.dials, p, q)
    {
      assert PairOk(s.h.joinLink, s.h.meshLink, s.nodes, s.links, s.dials, p, q);
    }
  }

  lemma JoinDialWeave(s: State, n: PeerId, to: PeerId)
    requires Safe(s) && Weave(s) && CanJoinDial(s, n, to)
    ensures Weave(DoJoinDial(s, n, to))
  {
    hide LinksOk, EndsOk, CallsOk, DeskOk, ReqsOk, LinksCalm, StagesOk, EntriesOk, BackOk, TodoOk, PairsOk, ListsOk, NodesOk,
      NoFarewell, NodesCalm;
    var k := Link(JoinLink, n, to, [Hello(s.nodes[n].room, n)], [], false, AwaitWelcome, Fresh);
    StrangersApart(s, n, to);
    AppendParts(s, k);
    AppendPairs(s, k, s.h.joinLink[n := |s.links|]);
  }

  lemma StrangersApart(s: State, n: PeerId, to: PeerId)
    requires Safe(s) && Weave(s) && n in s.joining && n in s.nodes && to in s.nodes
    ensures !Known(s.a, n) && n !in s.a.lists && s.nodes[n].peers == map[] && n !in s.nodes[to].peers && s.a.host in s.nodes
    ensures s.nodes[n].running
  {
    hide LinksOk, EndsOk, CallsOk, DeskOk, ReqsOk, LinksCalm, StagesOk, EntriesOk, BackOk, TodoOk, PairsOk;
    assert NodeOk(s.a, n, s.nodes[n]) && NodeOk(s.a, to, s.nodes[to]);
  }

  /** Two listed nodes with no mesh link between them are not in each other's map. */
  lemma Apart(s: State, n: PeerId, q: PeerId)
    requires Safe(s) && Weave(s) && n in s.nodes && n in s.a.lists && q in s.a.lists
    requires (n, q) !in s.h.meshLink && (q, n) !in s.h.meshLink
    ensures q !in s.nodes[n].peers
  {
    hide NodesOk, EndsOk, JoinsOk, CallsOk, DeskOk, ReqsOk, TasksCalm, NodesCalm, LinksCalm, StagesOk, EntriesOk, TodoOk, PairsOk,
      QueueOk, JoinIndex;
    assert q in s.nodes[n].peers ==> Backed(s.links, n, q, s.nodes[n].peers[q]);
  }

  lemma NoBackCall(s: State, p: PeerId, q: PeerId)
    requires Safe(s) && MeshIndex(s.h.meshLink, s.links) && p in s.a.lists && q in s.a.lists[p]
    ensures (q, p) !in s.h.meshLink && q in s.a.lists && p != q
  {
    hide NodesOk, EndsOk, JoinsOk, CallsOk, DeskOk, ReqsOk, QueueOk, NearOk, FarOk;
    assert forall l | 0 <= l < |s.links| :: LinkOk(s.a, s.links[l]);
  }

  lemma DialWeave(s: State, c: Call)
    requires Safe(s) && Weave(s) && CanDial(s, c)
    ensures Weave(DoDial(s, c))
  {
    hide NodesOk, LinksOk, EndsOk, JoinsOk, DeskOk, ReqsOk, LinksCalm, StagesOk, EntriesOk, BackOk, TodoOk, PairsOk, TasksCalm,
      JoinIndex, MeshIndex;
    var k := Link(MeshLink, c.from, c.to, [MeshHello(s.nodes[c.from].room, c.from)], [], false, AwaitAck(c.to, c.attempt), Fresh);
    DialReady(s, c);
    assert k.near == AwaitAck(c.to, 0) && c == Call(c.from, c.to, 0);
    AppendParts(s, k);
    DialPairs(s, c, k);
    assert JoinIndex(s.h.joinLink, s.links + [k]) && MeshIndex(s.h.meshLink[(c.from, c.to) := |s.links|], s.links + [k]) by {
      AppendIndex(s, c.from, c.to, k);
    }
  }

  lemma AppendIndex(s: State, p: PeerId, q: PeerId, k: Link)
    requires JoinIndex(s.h.joinLink, s.links) && MeshIndex(s.h.meshLink, s.links) && (p, q) !in s.h.meshLink
    requires k.kind.MeshLink? && k.caller == p && k.callee == q
    ensures JoinIndex(s.h.joinLink, s.links + [k]) && MeshIndex(s.h.meshLink[(p, q) := |s.links|], s.links + [k])
  {
  }

  lemma DialReady(s: State, c: Call)
    requires Safe(s) && Weave(s) && CanDial(s, c)
    ensures c.from in s.a.lists && c.to in s.a.lists[c.from] && (c.from, c.to) !in s.h.meshLink
    ensures s.nodes[c.from].room == s.nodes[s.a.host].room
    ensures c.to !in s.nodes[c.from].peers && c.from !in s.nodes[c.to].peers && s.a.host in s.nodes
  {
    hide NodesOk, LinksOk, EndsOk, JoinsOk, DeskOk, ReqsOk, LinksCalm, StagesOk, EntriesOk, BackOk, TodoOk, TasksCalm, JoinIndex;
    assert CallOk(s.a, c);
    assert c == Call(c.from, c.to, 0);
    assert PairOk(s.h.joinLink, s.h.meshLink, s.nodes, s.links, s.dials, c.from, c.to);
    NoBackCall(s, c.from, c.to);
    Apart(s, c.from, c.to);
    Apart(s, c.to, c.from);
  }

  lemma DialPairs(s: State, c: Call, k: Link)
    requires PairsOk(s.a.lists, s.h, s.nodes, s.links, s.dials) && c in s.dials && c.attempt == 0
    requires c.from in s.a.lists && c.to in s.a.lists[c.from]
    ensures PairsOk(s.a.lists, s.h.(meshLink := s.h.meshLink[(c.from, c.to) := |s.links|]), s.nodes, s.links + [k], s.dials - {c})
  {
    forall p, q | p in s.a.lists && q in s.a.lists[p]
      ensures PairOk(s.h.joinLink, s.h.meshLink[(c.from, c.to) := |s.links|], s.nodes, s.links + [k], s.dials - {c}, p, q)
    {
      assert PairOk(s.h.joinLink, s.h.meshLink, s.nodes, s.links, s.dials, p, q);
      assert Call(p, q, 0) == c <==> (p, q) == (c.from, c.to);
    }
  }

  // ----- attaching a link -----

  /** The join link of an accepted newcomer ends at the host. */
  lemma AcceptedLink(s: State, m: LinkId)
    requires Safe(s) && StagesOk(s.a, s.links) && m < |s.links| && s.links[m].kind.JoinLink? && s.links[m].caller in s.a.accepted
    ensures s.links[m].callee == s.a.host
  {
    hide NodesOk, JoinsOk, CallsOk, DeskOk, ReqsOk, QueueOk, NearOk;
    assert LinkOk(s.a, s.links[m]) && StageOk(s.a, s.links[m]);
  }

  /** The two ends of every link that may be attached name a pair no other link names. */
  lemma Distinct(s: State, l: LinkId, m: LinkId)
    requires Safe(s) && MeshIndex(s.h.meshLink, s.links) && StagesOk(s.a, s.links) && l < |s.links| && m < |s.links| && l != m
    requires Joined(s.a, s.links[l].kind, s.links[l].caller, s.links[l].callee)
    ensures !(s.links[m].caller == s.links[l].caller && s.links[m].callee == s.links[l].callee)
    ensures !(s.links[m].caller == s.links[l].callee && s.links[m].callee == s.links[l].caller)
  {
    hide NodesOk, JoinsOk, CallsOk, DeskOk, ReqsOk, QueueOk, NearOk, FarOk, StagesOk;
    assert LinkOk(s.a, s.links[l]) && LinkOk(s.a, s.links[m]);
    HostNotJoining(s);
    if s.links[m].kind.JoinLink? && s.links[m].caller in s.a.accepted { AcceptedLink(s, m); }
  }

  lemma OwnEnds(s: State, l: LinkId)
    requires Safe(s) && l < |s.links| && Joined(s.a, s.links[l].kind, s.links[l].caller, s.links[l].callee)
    ensures s.links[l].caller != s.links[l].callee
  {
    hide NodesOk, JoinsOk, CallsOk, DeskOk, ReqsOk, QueueOk, NearOk, FarOk, EndsOk;
    assert LinkOk(s.a, s.links[l]);
  }

  lemma HostNotJoining(s: State)
    requires Safe(s)
    ensures s.a.host !in s.h.joinLink
  {
    hide NodesOk, LinksOk, EndsOk, CallsOk, DeskOk, ReqsOk, ListsOk;
  }

  lemma AttachEntries(s: State, l: LinkId, e: End)
    requires Safe(s) && EntriesOk(s.nodes, s.links) && BackOk(s.nodes, s.links) && OnLink(s, l)
    requires MeshIndex(s.h.meshLink, s.links) && StagesOk(s.a, s.links)
    requires Joined(s.a, s.links[l].kind, s.links[l].caller, s.links[l].callee) && !PhaseAt(s.links[l], e).Reading?
    requires s.nodes[NodeAt(s.links[l], e)].running
    ensures var t := AttachAt(s, l, e, Other(s.links[l], e)); EntriesOk(t.nodes, t.links) && BackOk(t.nodes, t.links)
  {
    hide Safe, BackOk, MeshIndex, StagesOk, Joined;
    var k := s.links[l];
    var t := AttachAt(s, l, e, Other(k, e));
    forall m | 0 <= m < |s.links| && m != l
      ensures EntryOk(t.nodes, m, t.links[m], Caller) && EntryOk(t.nodes, m, t.links[m], Callee)
    {
      Distinct(s, l, m);
    }
    assert EntryOk(s.nodes, l, k, Caller) && EntryOk(s.nodes, l, k, Callee);
    OwnEnds(s, l);
    AttachBack(s, l, e);
  }

  lemma AttachBack(s: State, l: LinkId, e: End)
    requires BackOk(s.nodes, s.links) && OnLink(s, l) && !PhaseAt(s.links[l], e).Reading?
    requires s.nodes[NodeAt(s.links[l], e)].running
    ensures var t := AttachAt(s, l, e, Other(s.links[l], e)); BackOk(t.nodes, t.links)
  {
    var k := s.links[l];
    var t := AttachAt(s, l, e, Other(k, e));
    forall n, q | n in t.nodes && q in t.nodes[n].peers ensures Backed(t.links, n, q, t.nodes[n].peers[q]) {
      if q in s.nodes[n].peers { assert Backed(s.links, n, q, s.nodes[n].peers[q]); }
    }
  }

  /** The invariant but for the shape of link `l` and for the pairs. */
  ghost predicate WeaveBut(s: State, l: LinkId) {
    && TasksCalm(s.a.host, s.nodes, s.joining, s.drains) && NodesCalm(s.a, s.nodes)
    && (forall m | 0 <= m < |s.links| && m != l :: LinkCalm(s.a, s.nodes, s.links[m]))
    && JoinIndex(s.h.joinLink, s.links) && MeshIndex(s.h.meshLink, s.links) && StagesOk(s.a, s.links)
    && EntriesOk(s.nodes, s.links) && BackOk(s.nodes, s.links) && TodoOk(s.links)
  }

  lemma AttachWeave(s: State, l: LinkId, e: End)
    requires Safe(s) && WeaveBut(s, l) && OnLink(s, l) && !PhaseAt(s.links[l], e).Reading? && !s.links[l].far.Announcing?
    requires Joined(s.a, s.links[l].kind, s.links[l].caller, s.links[l].callee) && s.nodes[NodeAt(s.links[l], e)].running
    requires var j := SetPhase(s.links[l], e, Reading(Other(s.links[l], e)));
      LinkCalm(s.a, s.nodes, j) && StageOk(s.a, j)
    ensures var t := AttachAt(s, l, e, Other(s.links[l], e));
      WeaveBut(t, l) && LinksCalm(t.a, t.nodes, t.links) && t.byes == s.byes && t.lefts == s.lefts && t.dials == s.dials
    ensures AttachAt(s, l, e, Other(s.links[l], e)).a == s.a && AttachAt(s, l, e, Other(s.links[l], e)).h == s.h
  {
    hide Safe, EntriesOk, BackOk, StageOk, Joined, TodoOk, JoinIndex, MeshIndex;
    var k := s.links[l];
    var n := NodeAt(k, e);
    var j := SetPhase(k, e, Reading(Other(k, e)));
    var t := AttachAt(s, l, e, Other(k, e));
    AttachEntries(s, l, e);
    TodoKept(s.links, l, j);
    SameIndex(s, l, j);
    assert LinksCalm(s.a, s.nodes, t.links);
    assert LinksCalm(t.a, t.nodes, t.links) by { QuietNodeLinks(s.(links := t.links), n, Attach(s.nodes[n], Other(k, e), l)); }
  }

  /** Both sides of a pair keep their stage when a link other than a waiting newcomer's is attached. */
  lemma AttachPairs(s: State, l: LinkId, e: End)
    requires PairsOk(s.a.lists, s.h, s.nodes, s.links, s.dials) && OnLink(s, l)
    requires !PhaseAt(s.links[l], e).Reading? && !s.links[l].far.Announcing?
    requires e.Caller? ==> !Undelivered(s.links[l].near)
    requires s.nodes[NodeAt(s.links[l], e)].running
    ensures var t := AttachAt(s, l, e, Other(s.links[l], e)); PairsOk(t.a.lists, t.h, t.nodes, t.links, t.dials)
  {
    var k := s.links[l];
    var n := NodeAt(k, e);
    var j := SetPhase(k, e, Reading(Other(k, e)));
    QuietLinkPairs(s, l, j);
    QuietNodePairs(PutLink(s, l, j), n, Attach(s.nodes[n], Other(k, e), l));
  }

  lemma AdmitWeave(s: State, l: LinkId)
    requires Safe(s) && Weave(s) && CanAdmit(s, l)
    ensures Weave(DoAdmit(s, l))
  {
    hide Safe, EntryOk, ListsOk, QueueOk, TasksCalm, NoFarewell, JoinIndex, MeshIndex, EntriesOk, BackOk, TodoOk, PairsOk;
    WeaveAt(s, l);
    AttachWeave(s, l, Callee);
    AttachPairs(s, l, Callee);
  }

  lemma AttachCallerWeave(s: State, l: LinkId)
    requires Safe(s) && Weave(s) && CanAttachCaller(s, l)
    ensures Weave(DoAttachCaller(s, l))
  {
    hide Safe, EntryOk, QueueOk, TasksCalm, NoFarewell, JoinIndex, MeshIndex, EntriesOk, BackOk, TodoOk, PairsOk;
    WeaveAt(s, l);
    AttachWeave(s, l, Callee);
    AttachPairs(s, l, Callee);
  }

  lemma TakeAckWeave(s: State, l: LinkId)
    requires Safe(s) && Weave(s) && CanTakeAck(s, l)
    ensures Weave(DoTakeAck(s, l))
  {
    hide Safe, EntryOk, QueueOk, TasksCalm, NoFarewell, JoinIndex, MeshIndex, EntriesOk, BackOk, TodoOk, PairsOk;
    WeaveAt(s, l);
    TakeAckSafe(s, l);
    var k := s.links[l];
    var j := Pop(k, Caller);
    var t := PutLink(s, l, j);
    assert LinkOk(s.a, j) by { PopOk(s.a, k, Caller); }
    LinkSafe(s, l, j);
    EntriesKept(s, l, j);
    TodoKept(s.links, l, j);
    SameIndex(s, l, j);
    QuietLinkPairs(s, l, j);
    AttachWeave(t, l, Caller);
    AttachPairs(t, l, Caller);
  }

  lemma AttachHostWeave(s: State, l: LinkId)
    requires Safe(s) && Weave(s) && CanAttachHost(s, l)
    ensures Weave(DoAttachHost(s, l))
  {
    hide Safe, EntryOk, QueueOk, TasksCalm, JoinIndex, MeshIndex, EntriesOk, BackOk, TodoOk, PairsOk;
    WeaveAt(s, l);
    AttachWeave(s, l, Caller);
    OwnJoinLink(s, l);
    AttachHostPairs(s, l);
  }

  lemma AttachHostPairs(s: State, l: LinkId)
    requires PairsOk(s.a.lists, s.h, s.nodes, s.links, s.dials) && CanAttachHost(s, l) && JoinIndex(s.h.joinLink, s.links)
    requires s.links[l].caller in s.a.lists && s.links[l].near.list == s.a.lists[s.links[l].caller]
    requires s.links[l].kind.JoinLink? && s.nodes[s.links[l].caller].running && !s.links[l].far.Announcing?
    requires s.links[l].caller in s.h.joinLink && s.h.joinLink[s.links[l].caller] == l
    ensures var t := DoAttachHost(s, l); PairsOk(t.a.lists, t.h, t.nodes, t.links, t.dials)
  {
    var k := s.links[l];
    var t := DoAttachHost(s, l);
    forall p, q | p in s.a.lists && q in s.a.lists[p]
      ensures PairOk(t.h.joinLink, t.h.meshLink, t.nodes, t.links, t.dials, p, q)
    {
      assert PairOk(s.h.joinLink, s.h.meshLink, s.nodes, s.links, s.dials, p, q);
      assert s.links[s.h.joinLink[p]].caller == p;
      assert Call(p, q, 0) in t.dials <==> Call(p, q, 0) in s.dials || p == k.caller;
    }
  }

  lemma OwnJoinLink(s: State, l: LinkId)
    requires Safe(s) && l < |s.links| && s.links[l].kind.JoinLink?
    ensures s.links[l].caller in s.h.joinLink && s.h.joinLink[s.links[l].caller] == l
  {
    hide LinkOk, NodesOk, ListsOk, JoinsOk, DeskOk, ReqsOk, LinksOk;
  }

  // ----- announcements -----

  /** What `connected_peers()` returns at the host: joiners whose link the host is reading. */
  lemma HostPeers(s: State, q: PeerId)
    requires Safe(s) && BackOk(s.nodes, s.links) && s.a.host in s.nodes && q in s.nodes[s.a.host].peers
    ensures var m := s.nodes[s.a.host].peers[q];
      m < |s.links| && s.links[m].kind.JoinLink? && s.links[m].caller == q && s.links[m].far.Reading?
    ensures q in s.h.joinLink && s.h.joinLink[q] == s.nodes[s.a.host].peers[q] && q in s.a.lists
  {
    hide EndsOk, CallsOk, DeskOk, ReqsOk, QueueOk, FarOk, NearOk, JoinsOk;
    assert Backed(s.links, s.a.host, q, s.nodes[s.a.host].peers[q]);
    var m := s.nodes[s.a.host].peers[q];
    assert LinkOk(s.a, s.links[m]);
    assert NodeOk(s.a, s.a.host, s.nodes[s.a.host]);
    if s.links[m].kind.JoinLink? {
      OwnJoinLink(s, m);
      JoinersAreNotHost(s, m);
    }
  }

  lemma SnapshotWeave(s: State, l: LinkId)
    requires Safe(s) && Weave(s) && CanSnapshot(s, l)
    ensures Weave(DoSnapshot(s, l))
  {
    hide Safe, EntryOk, QueueOk, JoinIndex, MeshIndex, EntriesOk, BackOk, TodoOk, PairsOk, NoFarewell, ListsOk, MeshCalm;
    WeaveAt(s, l);
    TakenOk(s.a, s.links[l]);
    OwnJoinLink(s, l);
    OneJoinLink(s, l);
    var t := DoSnapshot(s, l);
    SameIndex(s, l, t.links[l]);
    EntriesKept(s, l, t.links[l]);
    assert LinksCalm(t.a, t.nodes, t.links);
    assert StagesOk(t.a, t.links);
    SnapshotTodo(s, l);
    SnapshotPairs(s, l);
  }

  lemma SnapshotTodo(s: State, l: LinkId)
    requires Safe(s) && Weave(s) && CanSnapshot(s, l) && s.links[l].callee == s.a.host
    ensures TodoOk(DoSnapshot(s, l).links)
  {
    hide Safe, EntryOk, QueueOk, JoinIndex, MeshIndex, EntriesOk, BackOk, PairsOk, NoFarewell, ListsOk, LinksCalm, NodesCalm, StagesOk;
    var t := DoSnapshot(s, l);
    var peers := s.nodes[s.a.host].peers;
    forall i, m | 0 <= i < |t.links| && t.links[i].far.Announcing? && m in t.links[i].far.todo
      ensures TodoEntry(t.links, t.links[i].far.list, m)
    {
      if i == l {
        var q :| q in peers && peers[q] == m;
        HostPeers(s, q);
      } else {
        assert TodoEntry(s.links, s.links[i].far.list, m);
      }
    }
  }

  lemma SnapshotPairs(s: State, l: LinkId)
    requires Safe(s) && Weave(s) && CanSnapshot(s, l) && s.links[l].callee == s.a.host && s.links[l].near.AwaitWelcome?
    requires s.links[l].far.peer == s.links[l].caller && s.links[l].caller !in s.a.lists
    requires s.links[l].caller in s.h.joinLink && s.h.joinLink[s.links[l].caller] == l
    ensures var t := DoSnapshot(s, l); PairsOk(t.a.lists, t.h, t.nodes, t.links, t.dials)
  {
    hide Safe, EntryOk, QueueOk, EntriesOk, BackOk, NoFarewell, LinksCalm, NodesCalm, StagesOk, TodoOk;
    var k := s.links[l];
    var t := DoSnapshot(s, l);
    forall p, q | p in t.a.lists && q in t.a.lists[p]
      ensures PairOk(t.h.joinLink, t.h.meshLink, t.nodes, t.links, t.dials, p, q)
    {
      if p == k.caller {
        HostPeers(s, q);
        NotCalling(s, p, q);
      } else {
        assert PairOk(s.h.joinLink, s.h.meshLink, s.nodes, s.links, s.dials, p, q);
        assert s.links[s.h.joinLink[p]].caller == p;
      }
    }
  }

  lemma NotCalling(s: State, p: PeerId, q: PeerId)
    requires Safe(s) && MeshIndex(s.h.meshLink, s.links) && p !in s.a.lists
    ensures Call(p, q, 0) !in s.dials && (p, q) !in s.h.meshLink
  {
    hide NodesOk, EndsOk, JoinsOk, DeskOk, ReqsOk, QueueOk, FarOk, NearOk, ListsOk;
    assert Call(p, q, 0) in s.dials ==> CallOk(s.a, Call(p, q, 0));
    assert forall l | 0 <= l < |s.links| :: LinkOk(s.a, s.links[l]);
  }

  /** The link an announcement is sent on: an open join link of a listed, attached member. */
  lemma AnnounceTarget(s: State, l: LinkId, m: LinkId)
    requires Safe(s) && Weave(s) && CanAnnounce(s, l, m)
    ensures var j := s.links[m];
      m != l && j.kind.JoinLink? && j.callee == s.a.host && j.far.Reading? && !j.cut && j.caller in s.links[l].far.list
    ensures OnLink(s, m)
  {
    hide Safe, EntryOk, QueueOk, JoinIndex, MeshIndex, EntriesOk, BackOk, NoFarewell, NodesCalm, LinksCalm, StagesOk, ListsOk;
    WeaveAt(s, l);
    AllLinksOk(s, m);
    WeaveAt(s, m);
    InListed(s.a, s.links[l]);
    assert TodoEntry(s.links, s.links[l].far.list, m);
    OwnJoinLink(s, m);
    assert PairOk(s.h.joinLink, s.h.meshLink, s.nodes, s.links, s.dials, s.links[l].caller, s.links[m].caller);
  }

  lemma AnnounceWeave(s: State, l: LinkId, m: LinkId)
    requires Safe(s) && Weave(s) && CanAnnounce(s, l, m)
    ensures Weave(DoAnnounce(s, l, m))
  {
    hide Safe, EntryOk, QueueOk, JoinIndex, MeshIndex, EntriesOk, BackOk, TodoOk, PairsOk, NoFarewell, ListsOk, MeshCalm, NodesCalm, TasksCalm;
    WeaveAt(s, l);
    AnnounceTarget(s, l, m);
    WeaveAt(s, m);
    InListed(s.a, s.links[l]);
    var k := s.links[l];
    var j := k.(far := k.far.(todo := k.far.todo - {m}));
    var t := PutLink(s, l, j);
    SameIndex(s, l, j);
    EntriesKept(s, l, j);
    TodoKept(s.links, l, j);
    var sent := Push(s.links[m], Callee, PeerJoined(k.far.peer));
    assert DoAnnounce(s, l, m) == PutLink(t, m, sent);
    SameIndex(t, m, sent);
    EntriesKept(t, m, sent);
    TodoKept(t.links, m, sent);
    AnnouncePairs(s, l, m);
    assert LinkCalm(s.a, s.nodes, j) && StageOk(s.a, j);
    assert LinkCalm(s.a, s.nodes, sent) && StageOk(s.a, sent) by { MorePeerJoined(s, m, k.far.peer); }
  }

  lemma MorePeerJoined(s: State, m: LinkId, p: PeerId)
    requires m < |s.links| && LinkCalm(s.a, s.nodes, s.links[m]) && StageOk(s.a, s.links[m]) && s.links[m].kind.JoinLink?
    requires s.links[m].far.Reading?
    ensures var sent := Push(s.links[m], Callee, PeerJoined(p)); LinkCalm(s.a, s.nodes, sent) && StageOk(s.a, sent)
  {
  }

  lemma AnnouncePairs(s: State, l: LinkId, m: LinkId)
    requires PairsOk(s.a.lists, s.h, s.nodes, s.links, s.dials) && JoinIndex(s.h.joinLink, s.links)
    requires CanAnnounce(s, l, m) && m != l && s.links[l].far.peer == s.links[l].caller
    requires EndOf(s.links[m], s.links[l].callee) == Callee && !s.links[m].cut
    ensures var t := DoAnnounce(s, l, m); PairsOk(t.a.lists, t.h, t.nodes, t.links, t.dials)
  {
    var t := DoAnnounce(s, l, m);
    forall p, q | p in t.a.lists && q in t.a.lists[p]
      ensures PairOk(t.h.joinLink, t.h.meshLink, t.nodes, t.links, t.dials, p, q)
    {
      assert PairOk(s.h.joinLink, s.h.meshLink, s.nodes, s.links, s.dials, p, q);
      assert s.links[s.h.joinLink[p]].caller == p && s.links[s.h.joinLink[q]].caller == q;
    }
  }

  // ----- reading -----

  /** Between calm members only announcements are ever read by a reader loop. */
  lemma OnlyAnnouncements(s: State, l: LinkId, e: End)
    requires Safe(s) && Weave(s) && OnLink(s, l) && PhaseAt(s.links[l], e).Reading?
    ensures !s.links[l].cut
    ensures Inbox(s.links[l], e) != [] ==>
      e.Caller? && s.links[l].kind.JoinLink? && AllJoined(s.links[l].down) && Welcomed(s.links[l].far)
  {
    hide Safe, Weave, EntryOk, QueueOk, ListsOk, NodesCalm;
    WeaveAt(s, l);
  }

  lemma ReadWeave(s: State, l: LinkId, e: End)
    requires Safe(s) && Weave(s) && CanRead(s, l, e)
    ensures Weave(DoRead(s, l, e))
  {
    hide Safe, EntryOk, QueueOk, JoinIndex, MeshIndex, EntriesOk, BackOk, TodoOk, PairsOk, NoFarewell, ListsOk, MeshCalm, NodesCalm,
      TasksCalm, Weave;
    OnlyAnnouncements(s, l, e);
    WeaveAt(s, l);
    var k := s.links[l];
    var p := k.down[0].peer;
    var ns := AddToRoster(s.nodes[k.caller], p);
    QuietNodeWeave(s, k.caller, ns);
    AnnouncedRead(PutNode(s, k.caller, ns), l, p);
  }

  lemma AnnouncedRead(s: State, l: LinkId, p: PeerId)
    requires Weave(s) && OnLink(s, l) && s.links[l].near.Reading? && s.links[l].kind.JoinLink?
    requires s.links[l].down != [] && s.links[l].down[0] == PeerJoined(p) && AllJoined(s.links[l].down) && Welcomed(s.links[l].far)
    requires p in s.nodes[s.links[l].caller].roster
    ensures Weave(PutLink(s, l, Pop(s.links[l], Caller)))
  {
    hide JoinIndex, MeshIndex, EntriesOk, BackOk, TodoOk, NoFarewell, MeshCalm, NodesCalm, TasksCalm;
    var k := s.links[l];
    var j := Pop(k, Caller);
    SameIndex(s, l, j);
    EntriesKept(s, l, j);
    TodoKept(s.links, l, j);
    assert LinkCalm(s.a, s.nodes, k) && StageOk(s.a, k);
    forall x, y | x in s.a.lists && y in s.a.lists[x]
      ensures PairOk(s.h.joinLink, s.h.meshLink, s.nodes, s.links[l := j], s.dials, x, y)
    {
      assert PairOk(s.h.joinLink, s.h.meshLink, s.nodes, s.links, s.dials, x, y);
      assert forall m | m in k.down :: m == k.down[0] || m in j.down;
    }
  }

  lemma DrainWeave(s: State, n: PeerId, all: bool)
    requires Safe(s) && Weave(s) && CanDrain(s, n, all)
    ensures Weave(DoDrain(s, n, all))
  {
    hide LinksOk, EndsOk, JoinsOk, CallsOk, DeskOk, ReqsOk, ListsOk, LinksCalm, JoinIndex, MeshIndex, StagesOk, EntriesOk, BackOk,
      TodoOk, PairsOk, NoFarewell;
    var ns := s.nodes[n];
    assert NodeOk(s.a, n, ns);
    var t := DoDrain(s, n, all);
    assert Drain(ns, false) == ns;
    assert t.nodes == s.nodes;
    assert t.links == s.links;
  }

  // ----- every calm run -----

  /** Farewells, failed calls and lost links do not happen. */
  ghost predicate Failure(a: Action) {
    a.DialStop? || a.CallFailed? || a.BadFirst? || a.Eof? || a.CloseGone? || a.TellLeft? || a.SayBye?
  }

  lemma NeverHappens(s: State, a: Action)
    requires Safe(s) && Weave(s) && Failure(a)
    ensures !Enabled(s, a)
  {
    hide Safe, EntryOk, QueueOk, ListsOk, NodesCalm, TasksCalm, LinksCalm, StagesOk, JoinIndex, MeshIndex, EntriesOk,
      BackOk, TodoOk, PairsOk;
    match a
    case DialStop(c) => if c in s.dials { CallerRuns(s, c); }
    case CallFailed(l) => if OnLink(s, l) { WeaveAt(s, l); }
    case BadFirst(l) => if OnLink(s, l) { WeaveAt(s, l); }
    case Eof(l, e) => if OnLink(s, l) && PhaseAt(s.links[l], e).Reading? { OnlyAnnouncements(s, l, e); }
    case CloseGone(l, e) => if OnLink(s, l) { WeaveAt(s, l); }
    case TellLeft(l, n) =>
    case SayBye(l, e) =>
  }

  lemma CallerRuns(s: State, c: Call)
    requires Safe(s) && Weave(s) && c in s.dials
    ensures c.from in s.nodes && s.nodes[c.from].running && c.to in s.nodes && s.nodes[c.to].running
  {
    hide LinksOk, EndsOk, JoinsOk, DeskOk, ReqsOk, LinksCalm, JoinIndex, MeshIndex, StagesOk, EntriesOk, BackOk, TodoOk, PairsOk, NodesOk;
    assert CallOk(s.a, c);
  }

  lemma StepWeaveJoin(s: State, a: Action)
    requires Safe(s) && Weave(s) && Calm(a) && JoinEnabled(s, a)
    ensures Weave(JoinApply(s, a))
  {
    hide Safe, Weave;
    match a
    case JoinStart(n, room) => JoinStartWeave(s, n, room);
    case JoinDial(n, to) => JoinDialWeave(s, n, to);
    case JoinFail(n) => JoinFailWeave(s, n);
    case TakeWelcomeMsg(l) => TakeWelcomeWeave(s, l);
    case JoinRefused(l) => JoinRefusedWeave(s, l);
    case AttachHost(l) => AttachHostWeave(s, l);
    case TakeHello(l, expired) => TakeHelloWeave(s, l, expired);
    case Park(l) => ParkWeave(s, l);
    case Decline(n, q) => DecideWeave(s, n, q, Declining(q));
    case SendDecline(l) => SendDeclineWeave(s, l);
    case Take(n, q) => TakeWeave(s, n, q);
  }

  lemma StepWeaveApproval(s: State, a: Action)
    requires Safe(s) && Weave(s) && Calm(a) && ApprovalEnabled(s, a)
    ensures Weave(ApprovalApply(s, a))
  {
    hide Safe, Weave;
    match a
    case Snapshot(l) => SnapshotWeave(s, l);
    case Announce(l, m) => AnnounceWeave(s, l, m);
    case Enroll(l) => EnrollWeave(s, l);
    case Greet(l, ok) => GreetWeave(s, l, ok);
    case Admit(l) => AdmitWeave(s, l);
  }

  lemma StepWeaveCall(s: State, a: Action)
    requires Safe(s) && Weave(s) && Calm(a) && CallEnabled(s, a)
    ensures Weave(CallApply(s, a))
  {
    hide Safe, Weave;
    match a
    case Dial(c) => DialWeave(s, c);
    case TakeMeshHello(l) => TakeMeshHelloWeave(s, l);
    case SeeRoster(l) => SeeRosterWeave(s, l);
    case CheckLinked(l) => CheckLinkedWeave(s, l);
    case Ack(l, ok) => AckWeave(s, l, ok);
    case AttachCaller(l) => AttachCallerWeave(s, l);
    case TakeAck(l) => TakeAckWeave(s, l);
    case _ => NeverHappens(s, a);
  }

  lemma StepWeaveRunning(s: State, a: Action)
    requires Safe(s) && Weave(s) && Calm(a) && RunningEnabled(s, a)
    ensures Weave(RunningApply(s, a))
  {
    hide Safe, Weave;
    match a
    case Read(l, e) => ReadWeave(s, l, e);
    case DrainNode(n, all) => DrainWeave(s, n, all);
    case _ => NeverHappens(s, a);
  }

  lemma StepWeave(s: State, a: Action)
    requires Safe(s) && Weave(s) && Calm(a) && Enabled(s, a)
    ensures Weave(Apply(s, a))
  {
    hide Safe, Weave, JoinEnabled, JoinApply, ApprovalEnabled, ApprovalApply, CallEnabled, CallApply, RunningEnabled, RunningApply;
    if JoinEnabled(s, a) { StepWeaveJoin(s, a); }
    else if ApprovalEnabled(s, a) { StepWeaveApproval(s, a); }
    else if CallEnabled(s, a) { StepWeaveCall(s, a); }
    else { StepWeaveRunning(s, a); }
  }

  ghost predicate CalmRun(path: seq<State>, acts: seq<Action>) {
    IsRun(path, acts) && forall i | 0 <= i < |acts| :: Calm(acts[i])
  }

  lemma {:induction false} RunWeave(path: seq<State>, acts: seq<Action>, i: nat)
    requires CalmRun(path, acts) && i < |path|
    ensures Safe(path[i]) && Weave(path[i])
  {
    hide Safe, Weave;
    RunSafe(path, acts, i);
    if i == 0 { InitWeave(path[0]); } else {
      RunWeave(path, acts, i - 1);
      StepWeave(path[i - 1], acts[i - 1]);
    }
  }
}
