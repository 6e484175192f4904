/** What every reachable state of the room protocol keeps, whatever fails or leaves:
    only approved ids are known anywhere, requests are answered once, and the
    "who was listed to whom" relation has no cycle. */
module MeshSafety {
  import opened MeshNode
  import opened MeshModel

  ghost predicate Known(a: Approvals, p: PeerId) { p == a.host || p in a.accepted }

  ghost predicate ListsOk(a: Approvals) {
    && a.host !in a.accepted
    && a.lists.Keys == a.rank.Keys && a.lists.Keys <= a.accepted
    && (forall p | p in a.rank :: a.rank[p] < |a.rank|)
    && (forall p, q | p in a.lists && q in a.lists[p] :: q in a.lists && a.rank[q] < a.rank[p])
  }

  ghost predicate MsgOk(a: Approvals, kind: Kind, caller: PeerId, callee: PeerId, up: bool, m: Msg) {
    match m
    case Hello(_, p) => up && kind.JoinLink? && p == caller
    case MeshHello(_, p) => up && kind.MeshLink? && p == caller
    case Welcome(_, hh, ps) =>
      !up && kind.JoinLink? && hh == a.host == callee && caller in a.lists && ps == a.lists[caller]
    case MeshAck(p) => !up && kind.MeshLink? && p == callee
    case PeerJoined(q) => q in a.accepted
    case _ => true
  }

  ghost predicate QueueOk(a: Approvals, kind: Kind, caller: PeerId, callee: PeerId, up: bool, q: seq<Msg>) {
    forall i | 0 <= i < |q| :: MsgOk(a, kind, caller, callee, up, q[i])
  }

  ghost predicate NearOk(a: Approvals, kind: Kind, caller: PeerId, callee: PeerId, near: Phase) {
    match near
    case AwaitWelcome => kind.JoinLink?
    case HostAttach(hh, ps) =>
      kind.JoinLink? && hh == a.host == callee && caller in a.lists && ps == a.lists[caller]
    case AwaitAck(t, _) => kind.MeshLink? && t == callee
    case Reading(p) => p == callee && Joined(a, kind, caller, callee)
    case Leaving(p, _) => p == callee && Joined(a, kind, caller, callee)
    case Ended => true
    case _ => false
  }

  ghost predicate FarOk(a: Approvals, kind: Kind, caller: PeerId, callee: PeerId, far: Phase) {
    match far
    case Fresh => kind.JoinLink? ==> caller !in a.accepted
    case Checked(p) => Asking(a, kind, caller, callee) && p == caller
    case Parked(_, p) => Asking(a, kind, caller, callee) && p == caller
    case Declining(_) => Asking(a, kind, caller, callee)
    case Taken(_, p) => Admission(a, kind, callee) && p == caller && p in a.accepted && p !in a.lists
    case Announcing(_, p, list, _) => Admission(a, kind, callee) && p == caller && p in a.lists && list == a.lists[p]
    case Greeting(_, p, list) => Admission(a, kind, callee) && p == caller && p in a.lists && list == a.lists[p]
    case Admitting(p) => Admission(a, kind, callee) && p == caller && p in a.lists
    case Held(p) => kind.MeshLink? && p == caller
    case Seen(p) => kind.MeshLink? && p == caller
    case Acking(p) => kind.MeshLink? && p == caller
    case CallerAttach(p) => kind.MeshLink? && p == caller
    case Reading(p) => p == caller && Joined(a, kind, caller, callee)
    case Leaving(p, _) => p == caller && Joined(a, kind, caller, callee)
    case Ended => true
    case _ => false
  }

  /** A join link to the host. */
  ghost predicate Admission(a: Approvals, kind: Kind, callee: PeerId) { kind.JoinLink? && callee == a.host }

  ghost predicate Asking(a: Approvals, kind: Kind, caller: PeerId, callee: PeerId) {
    Admission(a, kind, callee) && caller !in a.accepted
  }

  /** A link that may end up in a `peers` map. */
  ghost predicate Joined(a: Approvals, kind: Kind, caller: PeerId, callee: PeerId) {
    kind.MeshLink? || (callee == a.host && caller in a.lists)
  }

  ghost predicate LinkOk(a: Approvals, k: Link) {
    && (k.kind.MeshLink? ==> k.caller in a.lists && k.callee in a.lists[k.caller])
    && QueueOk(a, k.kind, k.caller, k.callee, true, k.up)
    && QueueOk(a, k.kind, k.caller, k.callee, false, k.down)
    && NearOk(a, k.kind, k.caller, k.callee, k.near)
    && FarOk(a, k.kind, k.caller, k.callee, k.far)
  }

  ghost predicate LinksOk(a: Approvals, links: seq<Link>) {
    forall l | 0 <= l < |links| :: LinkOk(a, links[l])
  }

  ghost predicate EndsOk(ids: set<PeerId>, joinLink: map<PeerId, LinkId>, links: seq<Link>) {
    forall l | 0 <= l < |links| ::
      && links[l].caller in ids && links[l].callee in ids
      && (links[l].kind.JoinLink? ==> links[l].caller in joinLink && joinLink[links[l].caller] == l)
  }

  ghost predicate NodeOk(a: Approvals, n: PeerId, ns: NodeState) {
    && (forall p | p in ns.roster :: Known(a, p))
    && (forall p | p in ns.peers :: Known(a, p))
    && (!Known(a, n) ==> ns.roster == {} && ns.peers == map[])
    && (if n == a.host then ns.role.Host? && n !in ns.peers && ns.peers.Keys <= a.lists.Keys
        else !ns.role.Host? && ns.pending == map[])
  }

  ghost predicate NodesOk(a: Approvals, nodes: map<PeerId, NodeState>) {
    a.host in nodes && forall n | n in nodes :: NodeOk(a, n, nodes[n])
  }

  ghost predicate JoinsOk(a: Approvals, joinLink: map<PeerId, LinkId>, nodes: map<PeerId, NodeState>, joining: set<PeerId>) {
    && a.host !in joinLink && a.accepted <= joinLink.Keys
    && (forall n | n in joining :: n in nodes && n !in joinLink && !nodes[n].role.Idle? && n != a.host)
    && (forall n | n in nodes && nodes[n].role.Idle? :: n !in joinLink)
  }

  ghost predicate CallOk(a: Approvals, c: Call) { c.from in a.lists && c.to in a.lists[c.from] }

  ghost predicate CallsOk(a: Approvals, dials: set<Call>) { forall c | c in dials :: CallOk(a, c) }

  /** The request a link's answering thread is working on. */
  ghost predicate HasReq(p: Phase) { p.Parked? || p.Declining? || p.Taken? || p.Announcing? || p.Greeting? }

  ghost predicate DeskOk(host: PeerId, pending: map<Req, Pending>, links: seq<Link>) {
    forall r | r in pending ::
      var l := pending[r].link;
      l < |links| && links[l].far == Parked(r, pending[r].peer) && links[l].callee == host
  }

  ghost predicate ReqsOk(next: Req, answers: seq<Req>, links: seq<Link>) {
    && (forall l | 0 <= l < |links| && HasReq(links[l].far) :: links[l].far.req < next && links[l].far.req !in answers)
    && (forall l, m | 0 <= l < m < |links| && HasReq(links[l].far) && HasReq(links[m].far) ::
          links[l].far.req != links[m].far.req)
    && (forall i | 0 <= i < |answers| :: answers[i] < next)
    && (forall i, j | 0 <= i < j < |answers| :: answers[i] != answers[j])
  }

  ghost predicate Safe(s: State) {
    && ListsOk(s.a) && NodesOk(s.a, s.nodes)
    && LinksOk(s.a, s.links) && EndsOk(s.nodes.Keys, s.h.joinLink, s.links)
    && JoinsOk(s.a, s.h.joinLink, s.nodes, s.joining) && CallsOk(s.a, s.dials)
    && DeskOk(s.a.host, s.nodes[s.a.host].pending, s.links) && ReqsOk(s.nodes[s.a.host].nextReq, s.h.answers, s.links)
  }

  lemma InitSafe(s: State)
    requires Init(s)
    ensures Safe(s)
  {
  }

  // ----- queues -----

  lemma PushOk(a: Approvals, k: Link, e: End, m: Msg)
    requires LinkOk(a, k) && MsgOk(a, k.kind, k.caller, k.callee, e.Caller?, m)
    ensures LinkOk(a, Push(k, e, m))
  {
  }

  lemma PopOk(a: Approvals, k: Link, e: End)
    requires LinkOk(a, k) && Inbox(k, e) != []
    ensures LinkOk(a, Pop(k, e)) && MsgOk(a, k.kind, k.caller, k.callee, e.Callee?, Inbox(k, e)[0])
  {
  }


  // ----- framing: links, nodes and tasks change separately -----

  ghost predicate SameEnds(k: Link, j: Link) { j.kind == k.kind && j.caller == k.caller && j.callee == k.callee }

  ghost predicate SameReq(p: Phase, q: Phase) {
    (HasReq(q) ==> HasReq(p) && p.req == q.req) && (p.Parked? ==> q == p)
  }

  ghost predicate SameDesk(a: NodeState, b: NodeState) {
    a.pending == b.pending && a.nextReq == b.nextReq && a.role == b.role
  }

  lemma LinkSafe(s: State, l: LinkId, j: Link)
    requires Safe(s) && l < |s.links| && LinkOk(s.a, j)
    requires SameEnds(s.links[l], j) && SameReq(s.links[l].far, j.far)
    ensures Safe(PutLink(s, l, j))
  {
    hide NodesOk, LinkOk, ListsOk, JoinsOk, CallsOk;
    assert s.a.host in s.nodes by { HostThere(s); }
  }

  lemma HostThere(s: State)
    requires NodesOk(s.a, s.nodes)
    ensures s.a.host in s.nodes
  {
  }

  lemma NodeSafe(s: State, n: PeerId, ns: NodeState)
    requires Safe(s) && n in s.nodes && NodeOk(s.a, n, ns) && SameDesk(s.nodes[n], ns)
    ensures Safe(PutNode(s, n, ns))
  {
    hide NodeOk, LinkOk, ListsOk, CallsOk, DeskOk, ReqsOk;
  }

  lemma TaskSafe(s: State, t: State)
    requires Safe(s) && t == s.(joining := t.joining, dials := t.dials, drains := t.drains, byes := t.byes, lefts := t.lefts)
    requires t.joining <= s.joining && forall c | c in t.dials :: c in s.dials || CallOk(s.a, c)
    ensures Safe(t)
  {
    hide NodesOk, LinksOk, ListsOk, EndsOk, CallOk, DeskOk, ReqsOk;
  }

  lemma At(s: State, l: LinkId)
    requires Safe(s) && OnLink(s, l)
    ensures var k := s.links[l];
      ListsOk(s.a) && LinkOk(s.a, k) && NodeOk(s.a, k.caller, s.nodes[k.caller]) && NodeOk(s.a, k.callee, s.nodes[k.callee])
  {
    hide LinkOk, NodeOk, ListsOk, ReqsOk, EndsOk, DeskOk, JoinsOk;
  }

  // ----- sections and sends keep the local invariants -----

  lemma JoinedKnown(a: Approvals, k: Link, e: End)
    requires ListsOk(a) && LinkOk(a, k) && Joined(a, k.kind, k.caller, k.callee)
    ensures var n, p := NodeAt(k, e), NodeAt(k, if e.Caller? then Callee else Caller);
      Known(a, n) && Known(a, p) && (n == a.host ==> p in a.lists && p != a.host)
  {
  }

  lemma AttachNodeOk(a: Approvals, n: PeerId, ns: NodeState, p: PeerId, l: LinkId)
    requires NodeOk(a, n, ns) && Known(a, n) && Known(a, p) && (n == a.host ==> p in a.lists && p != a.host)
    ensures NodeOk(a, n, Attach(ns, p, l))
  {
  }

  lemma RosterNodeOk(a: Approvals, n: PeerId, ns: NodeState, p: PeerId)
    requires NodeOk(a, n, ns) && Known(a, n) && Known(a, p)
    ensures NodeOk(a, n, AddToRoster(ns, p))
  {
  }

  lemma EndPhaseOk(a: Approvals, k: Link, e: End, p: PeerId, again: bool)
    requires LinkOk(a, k) && Joined(a, k.kind, k.caller, k.callee)
    requires p == NodeAt(k, if e.Caller? then Callee else Caller)
    ensures LinkOk(a, SetPhase(k, e, Reading(p))) && LinkOk(a, SetPhase(k, e, Leaving(p, again)))
    ensures LinkOk(a, SetPhase(k, e, Ended))
  {
  }

  lemma CloseOk(a: Approvals, k: Link)
    requires LinkOk(a, k)
    ensures LinkOk(a, Close(k))
  {
  }

  lemma RefuseOk(a: Approvals, k: Link)
    requires LinkOk(a, k)
    ensures LinkOk(a, Refuse(k)) && SameEnds(k, Refuse(k))
  {
    PushOk(a, k, Callee, Rejected);
  }

  lemma AttachAtSafe(s: State, l: LinkId, e: End, peer: PeerId)
    requires Safe(s) && OnLink(s, l)
    requires var k := s.links[l];
      Joined(s.a, k.kind, k.caller, k.callee) && peer == NodeAt(k, if e.Caller? then Callee else Caller) &&
      !HasReq(PhaseAt(k, e))
    ensures Safe(AttachAt(s, l, e, peer))
  {
    hide Safe, ListsOk, NodeOk, LinkOk, Joined;
    var k := s.links[l];
    var n := NodeAt(k, e);
    At(s, l);
    JoinedKnown(s.a, k, e);
    EndPhaseOk(s.a, k, e, peer, false);
    if s.nodes[n].running {
      AttachNodeOk(s.a, n, s.nodes[n], peer, l);
      NodeSafe(s, n, Attach(s.nodes[n], peer, l));
      LinkSafe(PutNode(s, n, Attach(s.nodes[n], peer, l)), l, SetPhase(k, e, Reading(peer)));
    } else {
      assert LinkOk(s.a, Close(SetPhase(k, e, Ended))) by { CloseOk(s.a, SetPhase(k, e, Ended)); }
      LinkSafe(s, l, Close(SetPhase(k, e, Ended)));
    }
  }

  // ----- joining -----

  lemma JoinStartSafe(s: State, n: PeerId, room: Room)
    requires Safe(s) && CanJoinStart(s, n)
    ensures Safe(DoJoinStart(s, n, room))
  {
    hide LinksOk, DeskOk, ReqsOk, EndsOk, CallsOk, ListsOk;
    HostThere(s);
    assert n != s.a.host by { assert NodeOk(s.a, s.a.host, s.nodes[s.a.host]); }
    assert NodeOk(s.a, n, StartJoin(s.nodes[n], room));
    assert s.nodes[n := StartJoin(s.nodes[n], room)].Keys == s.nodes.Keys;
  }

  lemma JoinDialSafe(s: State, n: PeerId, to: PeerId)
    requires Safe(s) && CanJoinDial(s, n, to)
    ensures Safe(DoJoinDial(s, n, to))
  {
    hide NodesOk, ListsOk, CallsOk, LinksOk, DeskOk, ReqsOk, LinkOk;
    HostThere(s);
    var k := Link(JoinLink, n, to, [Hello(s.nodes[n].room, n)], [], false, AwaitWelcome, Fresh);
    assert n !in s.a.accepted;
    FirstLinkOk(s.a, k);
    NewLinkOk(s, k);
  }

  lemma FirstLinkOk(a: Approvals, k: Link)
    requires k.down == [] && |k.up| == 1 && MsgOk(a, k.kind, k.caller, k.callee, true, k.up[0])
    requires k.kind.MeshLink? ==> k.caller in a.lists && k.callee in a.lists[k.caller]
    requires NearOk(a, k.kind, k.caller, k.callee, k.near) && FarOk(a, k.kind, k.caller, k.callee, k.far)
    ensures LinkOk(a, k)
  {
  }

  lemma NewLinkOk(s: State, k: Link)
    requires s.a.host in s.nodes && LinksOk(s.a, s.links) && k.far.Fresh? && LinkOk(s.a, k)
    requires DeskOk(s.a.host, s.nodes[s.a.host].pending, s.links) && ReqsOk(s.nodes[s.a.host].nextReq, s.h.answers, s.links)
    ensures LinksOk(s.a, s.links + [k]) && DeskOk(s.a.host, s.nodes[s.a.host].pending, s.links + [k])
    ensures ReqsOk(s.nodes[s.a.host].nextReq, s.h.answers, s.links + [k])
  {
    hide LinkOk;
  }

  lemma JoinFailSafe(s: State, n: PeerId)
    requires Safe(s) && CanJoinFail(s, n)
    ensures Safe(DoJoinFail(s, n))
  {
    hide LinksOk, DeskOk, ReqsOk, EndsOk, CallsOk, ListsOk;
    StopSafe(s, n);
    TaskSafe(PutNode(s, n, Stop(s.nodes[n])), DoJoinFail(s, n));
  }

  lemma StopSafe(s: State, n: PeerId)
    requires Safe(s) && n in s.nodes
    ensures Safe(PutNode(s, n, Stop(s.nodes[n])))
  {
    hide LinksOk, DeskOk, ReqsOk, EndsOk, CallsOk, ListsOk, JoinsOk;
    NodeSafe(s, n, Stop(s.nodes[n]));
  }

  lemma TakeWelcomeSafe(s: State, l: LinkId)
    requires Safe(s) && CanTakeWelcome(s, l)
    ensures Safe(DoTakeWelcome(s, l))
  {
    hide Safe;
    var k := s.links[l];
    At(s, l);
    PopOk(s.a, k, Caller);
    var ns := TakeWelcome(s.nodes[k.caller], k.down[0].room, k.down[0].host, k.down[0].peers);
    NodeSafe(s, k.caller, ns);
    LinkSafe(PutNode(s, k.caller, ns), l, Pop(k, Caller).(near := HostAttach(k.down[0].host, k.down[0].peers)));
  }

  lemma JoinRefusedSafe(s: State, l: LinkId)
    requires Safe(s) && CanJoinRefused(s, l)
    ensures Safe(DoJoinRefused(s, l))
  {
    hide Safe, NodeOk, ListsOk;
    var k := s.links[l];
    At(s, l);
    StopSafe(s, k.caller);
    var t := PutNode(s, k.caller, Stop(s.nodes[k.caller]));
    LinkSafe(t, l, Close(k).(near := Ended, down := []));
    TaskSafe(PutLink(t, l, Close(k).(near := Ended, down := [])), DoJoinRefused(s, l));
  }

  lemma AttachHostSafe(s: State, l: LinkId)
    requires Safe(s) && CanAttachHost(s, l)
    ensures Safe(DoAttachHost(s, l))
  {
    hide Safe, NodeOk, QueueOk;
    var k := s.links[l];
    At(s, l);
    AttachAtSafe(s, l, Caller, k.near.host);
    TaskSafe(AttachAt(s, l, Caller, k.near.host), DoAttachHost(s, l));
  }

  // ----- admission -----

  lemma TakeHelloSafe(s: State, l: LinkId, expired: bool)
    requires Safe(s) && CanTakeHello(s, l)
    ensures Safe(DoTakeHello(s, l, expired))
  {
    hide Safe, QueueOk, ListsOk;
    var k := s.links[l];
    At(s, l);
    PopOk(s.a, k, Callee);
    RefuseOk(s.a, Pop(k, Callee));
    LinkSafe(s, l, DoTakeHello(s, l, expired).links[l]);
  }

  lemma ParkSafe(s: State, l: LinkId)
    requires Safe(s) && CanPark(s, l)
    ensures Safe(DoPark(s, l))
  {
    hide QueueOk, CallsOk, ListsOk, DeskOk, ReqsOk;
    At(s, l);
    HostThere(s);
    ParkDesk(s, l, s.links[l].far.peer);
    assert LinkOk(s.a, DoPark(s, l).links[l]);
  }

  lemma ParkDesk(s: State, l: LinkId, p: PeerId)
    requires s.a.host in s.nodes && l < |s.links| && s.links[l].far.Checked? && s.links[l].callee == s.a.host
    requires DeskOk(s.a.host, s.nodes[s.a.host].pending, s.links) && ReqsOk(s.nodes[s.a.host].nextReq, s.h.answers, s.links)
    ensures var hs := ParkRequest(s.nodes[s.a.host], p, l);
      var links := s.links[l := s.links[l].(far := Parked(s.nodes[s.a.host].nextReq, p))];
      DeskOk(s.a.host, hs.pending, links) && ReqsOk(hs.nextReq, s.h.answers, links)
  {
  }

  /** Taking a request off the desk moves its link to a phase with the same request. */
  lemma TakeDesk(s: State, req: Req, far: Phase)
    requires s.a.host in s.nodes && CanDecide(s, s.a.host, req) && HasReq(far) && far.req == req && !far.Parked?
    requires DeskOk(s.a.host, s.nodes[s.a.host].pending, s.links) && ReqsOk(s.nodes[s.a.host].nextReq, s.h.answers, s.links)
    ensures var hs := s.nodes[s.a.host];
      var l := hs.pending[req].link;
      var links := s.links[l := s.links[l].(far := far)];
      DeskOk(s.a.host, RemoveRequest(hs, req).pending, links) && ReqsOk(hs.nextReq, s.h.answers, links)
  {
  }

  /** Only the host has requests, and each is parked on its link. */
  lemma DeskEntry(s: State, n: PeerId, req: Req)
    requires Safe(s) && CanDecide(s, n, req)
    ensures n == s.a.host && OnLink(s, s.nodes[n].pending[req].link)
    ensures s.links[s.nodes[n].pending[req].link].far == Parked(req, s.nodes[n].pending[req].peer)
  {
    hide ListsOk, LinkOk, CallsOk, JoinsOk, ReqsOk;
    assert NodeOk(s.a, n, s.nodes[n]);
  }

  lemma DeclineSafe(s: State, n: PeerId, req: Req)
    requires Safe(s) && CanDecide(s, n, req)
    ensures Safe(DoDecline(s, n, req))
  {
    hide QueueOk, CallsOk, ListsOk, DeskOk, ReqsOk;
    DeskEntry(s, n, req);
    At(s, s.nodes[n].pending[req].link);
    TakeDesk(s, req, Declining(req));
  }

  lemma SendDeclineSafe(s: State, l: LinkId)
    requires Safe(s) && CanSendDecline(s, l)
    ensures Safe(DoSendDecline(s, l))
  {
    hide QueueOk, LinkOk, CallsOk, ListsOk, NodesOk, JoinsOk;
    HostThere(s);
    At(s, l);
    RefuseOk(s.a, s.links[l]);
    assert LinkOk(s.a, Refuse(s.links[l]));
  }

  /** `accepted` grows by the caller of one join link; the others are untouched by that. */
  lemma AcceptMono(a: Approvals, p: PeerId, k: Link)
    requires LinkOk(a, k) && (k.kind.JoinLink? ==> k.caller != p)
    ensures LinkOk(a.(accepted := a.accepted + {p}), k)
  {
  }

  lemma TakeSafe(s: State, n: PeerId, req: Req)
    requires Safe(s) && CanDecide(s, n, req)
    ensures Safe(DoTake(s, n, req))
  {
    hide LinksOk, NodesOk, QueueOk, DeskOk, ReqsOk, LinkOk, NodeOk, MsgOk, EndsOk, JoinsOk;
    DeskEntry(s, n, req);
    var l := s.nodes[n].pending[req].link;
    var k := s.links[l];
    At(s, l);
    TakeDesk(s, req, Taken(req, k.far.peer));
    ParkedAsking(s.a, k);
    TakeParts(s, l, req);
  }

  lemma TakeParts(s: State, l: LinkId, req: Req)
    requires LinksOk(s.a, s.links) && NodesOk(s.a, s.nodes) && l < |s.links|
    requires EndsOk(s.nodes.Keys, s.h.joinLink, s.links) && JoinsOk(s.a, s.h.joinLink, s.nodes, s.joining)
    requires ListsOk(s.a) && s.links[l].far.Parked?
    ensures var p := s.links[l].caller;
      var a := s.a.(accepted := s.a.accepted + {p});
      var links := s.links[l := s.links[l].(far := Taken(s.links[l].far.req, p))];
      var nodes := s.nodes[s.a.host := RemoveRequest(s.nodes[s.a.host], req)];
      LinksOk(a, links) && NodesOk(a, nodes) && EndsOk(nodes.Keys, s.h.joinLink, links) && p != s.a.host &&
      JoinsOk(a, s.h.joinLink, nodes, s.joining)
  {
    hide LinkOk, NodeOk, ListsOk;
    var k := s.links[l];
    ParkedAsking(s.a, k);
    forall m | 0 <= m < |s.links| && m != l ensures LinkOk(s.a.(accepted := s.a.accepted + {k.caller}), s.links[m]) {
      AcceptMono(s.a, k.caller, s.links[m]);
    }
    forall m | m in s.nodes
      ensures NodeOk(s.a.(accepted := s.a.accepted + {k.caller}), m, s.nodes[m])
      ensures NodeOk(s.a.(accepted := s.a.accepted + {k.caller}), m, RemoveRequest(s.nodes[m], req))
    {
      AcceptNodeOk(s.a, k.caller, m, s.nodes[m], req);
    }
    assert s.nodes[s.a.host := RemoveRequest(s.nodes[s.a.host], req)].Keys == s.nodes.Keys;
  }

  lemma ParkedAsking(a: Approvals, k: Link)
    requires ListsOk(a) && LinkOk(a, k) && k.far.Parked?
    ensures k.kind.JoinLink? && k.far.peer == k.caller && k.caller !in a.accepted
    ensures LinkOk(a.(accepted := a.accepted + {k.caller}), k.(far := Taken(k.far.req, k.caller)))
  {
  }

  lemma AcceptNodeOk(a: Approvals, p: PeerId, n: PeerId, ns: NodeState, req: Req)
    requires NodeOk(a, n, ns)
    ensures NodeOk(a.(accepted := a.accepted + {p}), n, ns) && NodeOk(a.(accepted := a.accepted + {p}), n, RemoveRequest(ns, req))
  {
    assert ns.pending == map[] ==> ns.pending - {req} == map[];
  }

  /** `lists` grows by one entry, whose owner had none. */
  lemma ListMono(a: Approvals, p: PeerId, list: set<PeerId>, k: Link)
    requires LinkOk(a, k) && p !in a.lists && !(k.far.Taken? && k.caller == p)
    ensures LinkOk(a.(lists := a.lists[p := list], rank := a.rank[p := |a.rank|]), k)
  {
    hide QueueOk;
    var b := a.(lists := a.lists[p := list], rank := a.rank[p := |a.rank|]);
    assert QueueOk(b, k.kind, k.caller, k.callee, true, k.up) by { ListQueueMono(a, p, list, k, true, k.up); }
    assert QueueOk(b, k.kind, k.caller, k.callee, false, k.down) by { ListQueueMono(a, p, list, k, false, k.down); }
  }

  lemma ListQueueMono(a: Approvals, p: PeerId, list: set<PeerId>, k: Link, up: bool, q: seq<Msg>)
    requires p !in a.lists && QueueOk(a, k.kind, k.caller, k.callee, up, q)
    ensures QueueOk(a.(lists := a.lists[p := list], rank := a.rank[p := |a.rank|]), k.kind, k.caller, k.callee, up, q)
  {
  }

  lemma SnapshotSafe(s: State, l: LinkId)
    requires Safe(s) && CanSnapshot(s, l)
    ensures Safe(DoSnapshot(s, l))
  {
    hide QueueOk, ReqsOk, LinkOk, NodeOk, MsgOk, ListsOk, CallOk;
    At(s, l);
    var k := s.links[l];
    var p := k.far.peer;
    TakenOk(s.a, k);
    var peers := s.nodes[k.callee].peers;
    var t := DoSnapshot(s, l);
    SnapshotLists(s.a, p, s.nodes[s.a.host]);
    forall m | 0 <= m < |s.links| ensures LinkOk(t.a, t.links[m]) {
      if m != l {
        if s.links[m].far.Taken? { TakenOk(s.a, s.links[m]); }
        ListMono(s.a, p, peers.Keys, s.links[m]);
      } else { TakenSnapshot(s.a, k, peers.Keys, peers.Values); }
    }
    forall m | m in s.nodes ensures NodeOk(t.a, m, t.nodes[m]) {
      ListNodeOk(s.a, p, peers.Keys, m, s.nodes[m]);
    }
    forall c | c in s.dials ensures CallOk(t.a, c) { ListCallOk(s.a, p, peers.Keys, c); }
    assert ReqsOk(s.nodes[s.a.host].nextReq, s.h.answers, t.links) by { ReqsKept(s.nodes[s.a.host].nextReq, s.h.answers, s.links, l, t.links[l]); }
  }

  lemma ReqsKept(next: Req, answers: seq<Req>, links: seq<Link>, l: LinkId, j: Link)
    requires ReqsOk(next, answers, links) && l < |links|
    requires HasReq(j.far) ==> HasReq(links[l].far) && links[l].far.req == j.far.req
    ensures ReqsOk(next, answers, links[l := j])
  {
  }

  lemma TakenOk(a: Approvals, k: Link)
    requires LinkOk(a, k) && k.far.Taken?
    ensures k.far.peer == k.caller && k.caller in a.accepted && k.caller !in a.lists && k.callee == a.host && k.kind.JoinLink?
  {
  }

  lemma TakenSnapshot(a: Approvals, k: Link, list: set<PeerId>, todo: set<LinkId>)
    requires LinkOk(a, k) && k.far.Taken?
    ensures LinkOk(a.(lists := a.lists[k.caller := list], rank := a.rank[k.caller := |a.rank|]),
                   k.(far := Announcing(k.far.req, k.caller, list, todo)))
  {
  }

  lemma SnapshotLists(a: Approvals, p: PeerId, hs: NodeState)
    requires ListsOk(a) && NodeOk(a, a.host, hs) && p in a.accepted && p !in a.lists
    ensures ListsOk(a.(lists := a.lists[p := hs.peers.Keys], rank := a.rank[p := |a.rank|]))
  {
    assert |a.rank[p := |a.rank|]| == |a.rank| + 1;
  }

  lemma ListNodeOk(a: Approvals, p: PeerId, list: set<PeerId>, n: PeerId, ns: NodeState)
    requires NodeOk(a, n, ns)
    ensures NodeOk(a.(lists := a.lists[p := list], rank := a.rank[p := |a.rank|]), n, ns)
  {
  }

  lemma ListCallOk(a: Approvals, p: PeerId, list: set<PeerId>, c: Call)
    requires CallOk(a, c) && p !in a.lists
    ensures CallOk(a.(lists := a.lists[p := list], rank := a.rank[p := |a.rank|]), c)
  {
  }

  lemma AnnounceSafe(s: State, l: LinkId, m: LinkId)
    requires Safe(s) && CanAnnounce(s, l, m)
    ensures Safe(DoAnnounce(s, l, m))
  {
    hide Safe, QueueOk, ListsOk, NodeOk;
    At(s, l);
    var k := s.links[l];
    var j := k.(far := k.far.(todo := k.far.todo - {m}));
    LinkSafe(s, l, j);
    var t := PutLink(s, l, j);
    InListed(s.a, k);
    AllLinksOk(t, m);
    PushOk(s.a, t.links[m], EndOf(t.links[m], k.callee), PeerJoined(k.far.peer));
    LinkSafe(t, m, Push(t.links[m], EndOf(t.links[m], k.callee), PeerJoined(k.far.peer)));
  }

  lemma InListed(a: Approvals, k: Link)
    requires ListsOk(a) && LinkOk(a, k) && (k.far.Announcing? || k.far.Greeting?)
    ensures k.far.peer == k.caller && k.caller in a.lists && k.caller in a.accepted && k.far.list == a.lists[k.caller]
    ensures k.callee == a.host && k.kind.JoinLink?
  {
  }

  lemma AllLinksOk(s: State, m: LinkId)
    requires Safe(s) && m < |s.links|
    ensures LinkOk(s.a, s.links[m]) && OnLink(s, m)
  {
    hide LinkOk;
  }

  lemma EnrollSafe(s: State, l: LinkId)
    requires Safe(s) && CanEnroll(s, l)
    ensures Safe(DoEnroll(s, l))
  {
    hide Safe, QueueOk, ListsOk, NodeOk;
    At(s, l);
    var k := s.links[l];
    InListed(s.a, k);
    RosterNodeOk(s.a, k.callee, s.nodes[k.callee], k.far.peer);
    NodeSafe(s, k.callee, AddToRoster(s.nodes[k.callee], k.far.peer));
    LinkSafe(PutNode(s, k.callee, AddToRoster(s.nodes[k.callee], k.far.peer)), l,
             k.(far := Greeting(k.far.req, k.far.peer, k.far.list)));
  }

  /** Answering a request moves its id from the link to the log. */
  lemma AnswerSafe(s: State, l: LinkId, j: Link)
    requires Safe(s) && l < |s.links| && LinkOk(s.a, j) && SameEnds(s.links[l], j)
    requires HasReq(s.links[l].far) && !s.links[l].far.Parked? && !HasReq(j.far)
    ensures Safe(PutLink(s, l, j).(h := s.h.(answers := s.h.answers + [s.links[l].far.req])))
  {
    hide QueueOk, LinkOk, CallsOk, ListsOk, NodesOk, JoinsOk;
    HostThere(s);
  }

  lemma GreetSafe(s: State, l: LinkId, ok: bool)
    requires Safe(s) && CanGreet(s, l, ok)
    ensures Safe(DoGreet(s, l, ok))
  {
    hide Safe, QueueOk, ListsOk, NodeOk;
    At(s, l);
    var k := s.links[l];
    InListed(s.a, k);
    PushOk(s.a, k, Callee, Welcome(s.nodes[k.callee].room, k.callee, k.far.list));
    AnswerSafe(s, l, DoGreet(s, l, ok).links[l]);
  }

  lemma AdmitSafe(s: State, l: LinkId)
    requires Safe(s) && CanAdmit(s, l)
    ensures Safe(DoAdmit(s, l))
  {
    hide Safe, QueueOk, ListsOk, NodeOk;
    At(s, l);
    AttachAtSafe(s, l, Callee, s.links[l].far.peer);
  }

  // ----- mesh calls -----

  lemma DialSafe(s: State, c: Call)
    requires Safe(s) && CanDial(s, c)
    ensures Safe(DoDial(s, c))
  {
    hide NodesOk, ListsOk, LinksOk, DeskOk, ReqsOk, LinkOk;
    HostThere(s);
    var k := Link(MeshLink, c.from, c.to, [MeshHello(s.nodes[c.from].room, c.from)], [], false,
                  AwaitAck(c.to, c.attempt), Fresh);
    assert CallOk(s.a, c);
    FirstLinkOk(s.a, k);
    NewLinkOk(s, k);
  }

  lemma DialLostSafe(s: State, c: Call)
    requires Safe(s) && CanDialLost(s, c)
    ensures Safe(DoDialLost(s, c)) && Safe(DoDialStop(s, c))
  {
    hide NodesOk, ListsOk, LinksOk, DeskOk, ReqsOk, JoinsOk, EndsOk;
    assert CallOk(s.a, c);
    TaskSafe(s, DoDialLost(s, c));
    TaskSafe(s, DoDialStop(s, c));
  }

  lemma TakeMeshHelloSafe(s: State, l: LinkId)
    requires Safe(s) && CanTakeMeshHello(s, l)
    ensures Safe(DoTakeMeshHello(s, l))
  {
    hide Safe, QueueOk, ListsOk, NodeOk;
    var k := s.links[l];
    At(s, l);
    PopOk(s.a, k, Callee);
    RefuseOk(s.a, Pop(k, Callee));
    LinkSafe(s, l, DoTakeMeshHello(s, l).links[l]);
  }

  lemma HeldSafe(s: State, l: LinkId)
    requires Safe(s) && OnLink(s, l) && s.links[l].far.Held?
    ensures Safe(PutLink(s, l, s.links[l].(far := Seen(s.links[l].far.peer)))) && Safe(PutLink(s, l, Refuse(s.links[l])))
  {
    hide Safe, QueueOk, ListsOk, NodeOk;
    var k := s.links[l];
    At(s, l);
    RefuseOk(s.a, k);
    LinkSafe(s, l, Refuse(k));
    LinkSafe(s, l, k.(far := Seen(k.far.peer)));
  }

  lemma CheckLinkedSafe(s: State, l: LinkId)
    requires Safe(s) && CanCheckLinked(s, l)
    ensures Safe(DoCheckLinked(s, l))
  {
    hide Safe, QueueOk, ListsOk, NodeOk;
    At(s, l);
    RefuseOk(s.a, s.links[l]);
    LinkSafe(s, l, DoCheckLinked(s, l).links[l]);
  }

  lemma AckSafe(s: State, l: LinkId, ok: bool)
    requires Safe(s) && CanAck(s, l, ok)
    ensures Safe(DoAck(s, l, ok))
  {
    hide Safe, QueueOk, ListsOk, NodeOk;
    At(s, l);
    PushOk(s.a, s.links[l], Callee, MeshAck(s.links[l].callee));
    LinkSafe(s, l, DoAck(s, l, ok).links[l]);
  }

  lemma AttachCallerSafe(s: State, l: LinkId)
    requires Safe(s) && CanAttachCaller(s, l)
    ensures Safe(DoAttachCaller(s, l))
  {
    hide Safe, QueueOk, ListsOk, NodeOk;
    At(s, l);
    AttachAtSafe(s, l, Callee, s.links[l].far.peer);
  }

  lemma TakeAckSafe(s: State, l: LinkId)
    requires Safe(s) && CanTakeAck(s, l)
    ensures Safe(DoTakeAck(s, l))
  {
    hide Safe, QueueOk, ListsOk, NodeOk;
    var k := s.links[l];
    At(s, l);
    PopOk(s.a, k, Caller);
    LinkSafe(s, l, Pop(k, Caller));
    AttachAtSafe(PutLink(s, l, Pop(k, Caller)), l, Caller, k.down[0].peer);
  }

  lemma CallFailedSafe(s: State, l: LinkId)
    requires Safe(s) && CanCallFailed(s, l)
    ensures Safe(DoCallFailed(s, l))
  {
    hide Safe, ListsOk, NodeOk;
    var k := s.links[l];
    At(s, l);
    LinkSafe(s, l, Close(k).(near := Ended, down := []));
    TaskSafe(PutLink(s, l, Close(k).(near := Ended, down := [])), DoCallFailed(s, l));
  }

  lemma BadFirstSafe(s: State, l: LinkId)
    requires Safe(s) && CanBadFirst(s, l)
    ensures Safe(DoBadFirst(s, l))
  {
    hide Safe, ListsOk, NodeOk, LinkOk;
    At(s, l);
    RefuseOk(s.a, s.links[l]);
    LinkSafe(s, l, Refuse(s.links[l]));
  }

  // ----- running links -----

  /** A thread in its reader loop belongs to a link between known nodes. */
  lemma RunningJoined(a: Approvals, k: Link, e: End)
    requires LinkOk(a, k) && (PhaseAt(k, e).Reading? || PhaseAt(k, e).Leaving?)
    ensures Joined(a, k.kind, k.caller, k.callee)
    ensures PhaseAt(k, e).peer == NodeAt(k, if e.Caller? then Callee else Caller)
  {
  }

  lemma DropNodeOk(a: Approvals, n: PeerId, ns: NodeState, p: PeerId)
    requires NodeOk(a, n, ns)
    ensures NodeOk(a, n, DropFromRoster(ns, p)) && NodeOk(a, n, Detach(ns, p))
  {
    assert ns.roster == {} ==> ns.roster - {p} == {};
    assert ns.peers == map[] ==> ns.peers - {p} == map[];
  }

  lemma GoneSafe(s: State, l: LinkId, e: End, p: PeerId, again: bool)
    requires Safe(s) && OnLink(s, l) && Joined(s.a, s.links[l].kind, s.links[l].caller, s.links[l].callee)
    requires !HasReq(PhaseAt(s.links[l], e)) && p == NodeAt(s.links[l], if e.Caller? then Callee else Caller)
    ensures Safe(GoneAt(s, l, e, p, again))
  {
    hide Safe, ListsOk, NodeOk, LinkOk, Joined;
    var k := s.links[l];
    var n := NodeAt(k, e);
    At(s, l);
    EndPhaseOk(s.a, k, e, p, again);
    DropNodeOk(s.a, n, s.nodes[n], p);
    NodeSafe(s, n, Detach(s.nodes[n], p));
    LinkSafe(PutNode(s, n, Detach(s.nodes[n], p)), l, GoneAt(s, l, e, p, again).links[l]);
  }

  lemma ReadSafe(s: State, l: LinkId, e: End)
    requires Safe(s) && CanRead(s, l, e)
    ensures Safe(DoRead(s, l, e))
  {
    hide Safe, ListsOk, NodeOk, LinkOk, Joined;
    var k := s.links[l];
    var n := NodeAt(k, e);
    At(s, l);
    PopOk(s.a, k, e);
    RunningJoined(s.a, k, e);
    JoinedKnown(s.a, k, e);
    LinkSafe(s, l, Pop(k, e));
    var t := PutLink(s, l, Pop(k, e));
    match Inbox(k, e)[0]
    case PeerJoined(q) =>
      RosterNodeOk(s.a, n, s.nodes[n], q);
      NodeSafe(t, n, AddToRoster(s.nodes[n], q));
    case PeerLeft(q) =>
      DropNodeOk(s.a, n, s.nodes[n], q);
      NodeSafe(t, n, DropFromRoster(s.nodes[n], q));
    case Bye => GoneSafe(t, l, e, PhaseAt(k, e).peer, true);
    case _ =>
  }

  lemma EofSafe(s: State, l: LinkId, e: End)
    requires Safe(s) && CanEof(s, l, e)
    ensures Safe(DoEof(s, l, e))
  {
    hide Safe, ListsOk, NodeOk, LinkOk, Joined;
    At(s, l);
    RunningJoined(s.a, s.links[l], e);
    GoneSafe(s, l, e, PhaseAt(s.links[l], e).peer, false);
  }

  lemma CloseGoneSafe(s: State, l: LinkId, e: End)
    requires Safe(s) && CanCloseGone(s, l, e)
    ensures Safe(DoCloseGone(s, l, e))
  {
    hide Safe, ListsOk, NodeOk, LinkOk, Joined;
    var k := s.links[l];
    var p := PhaseAt(k, e);
    At(s, l);
    RunningJoined(s.a, k, e);
    EndPhaseOk(s.a, k, e, p.peer, false);
    var j := SetPhase(k, e, if p.again then Reading(p.peer) else Ended);
    CloseOk(s.a, j);
    LinkSafe(s, l, Close(j));
    TaskSafe(PutLink(s, l, Close(j)), DoCloseGone(s, l, e));
  }

  lemma TellLeftSafe(s: State, m: LinkId, peer: PeerId)
    requires Safe(s) && CanTellLeft(s, m, peer)
    ensures Safe(DoTellLeft(s, m, peer))
  {
    hide Safe, LinkOk;
    AllLinksOk(s, m);
    var j := Push(s.links[m], EndOf(s.links[m], s.a.host), PeerLeft(peer));
    PushOk(s.a, s.links[m], EndOf(s.links[m], s.a.host), PeerLeft(peer));
    LinkSafe(s, m, j);
    TaskSafe(PutLink(s, m, j), DoTellLeft(s, m, peer));
  }

  // ----- teardown and failure -----

  lemma LeaveSafe(s: State, n: PeerId)
    requires Safe(s) && CanLeave(s, n)
    ensures Safe(DoLeave(s, n))
  {
    hide Safe;
    StopSafe(s, n);
    TaskSafe(PutNode(s, n, Stop(s.nodes[n])), DoLeave(s, n));
  }

  lemma SayByeSafe(s: State, m: LinkId, e: End)
    requires Safe(s) && CanSayBye(s, m, e)
    ensures Safe(DoSayBye(s, m, e))
  {
    hide Safe, LinkOk;
    AllLinksOk(s, m);
    PushOk(s.a, s.links[m], e, Bye);
    CloseOk(s.a, Push(s.links[m], e, Bye));
    LinkSafe(s, m, Close(Push(s.links[m], e, Bye)));
    TaskSafe(PutLink(s, m, Close(Push(s.links[m], e, Bye))), DoSayBye(s, m, e));
  }

  lemma CutSafe(s: State, l: LinkId, up: nat, down: nat)
    requires Safe(s) && CanCut(s, l, up, down)
    ensures Safe(DoCut(s, l, up, down))
  {
    hide Safe, NearOk, FarOk;
    AllLinksOk(s, l);
    LinkSafe(s, l, DoCut(s, l, up, down).links[l]);
  }

  lemma DrainSafe(s: State, n: PeerId, all: bool)
    requires Safe(s) && CanDrain(s, n, all)
    ensures Safe(DoDrain(s, n, all))
  {
    hide ListsOk, LinkOk, CallsOk, DeskOk, ReqsOk, LinksOk, EndsOk;
    var t := DoDrain(s, n, all);
    assert t.nodes.Keys == s.nodes.Keys;
    DrainLinks(s, n, all);
    HostThere(s);
    assert NodeOk(s.a, s.a.host, s.nodes[s.a.host]);
    DrainDesk(s, n, all);
  }

  lemma DrainLinks(s: State, n: PeerId, all: bool)
    requires CanDrain(s, n, all) && LinksOk(s.a, s.links) && EndsOk(s.nodes.Keys, s.h.joinLink, s.links)
    ensures var t := DoDrain(s, n, all); LinksOk(s.a, t.links) && EndsOk(s.nodes.Keys, s.h.joinLink, t.links)
  {
    hide LinkOk, DrainLink;
    var t := DoDrain(s, n, all);
    forall l | 0 <= l < |s.links| ensures LinkOk(s.a, t.links[l]) && SameEnds(s.links[l], t.links[l]) {
      DrainLinkOk(s.a, s.nodes[n], all, l, s.links[l]);
    }
  }

  lemma DrainLinkOk(a: Approvals, ns: NodeState, all: bool, l: LinkId, k: Link)
    requires LinkOk(a, k)
    ensures LinkOk(a, DrainLink(ns, all, l, k)) && SameEnds(k, DrainLink(ns, all, l, k))
  {
  }

  lemma DrainDesk(s: State, n: PeerId, all: bool)
    requires CanDrain(s, n, all) && s.a.host in s.nodes && (n != s.a.host ==> s.nodes[n].pending == map[])
    requires DeskOk(s.a.host, s.nodes[s.a.host].pending, s.links) && ReqsOk(s.nodes[s.a.host].nextReq, s.h.answers, s.links)
    ensures var t := DoDrain(s, n, all);
      DeskOk(s.a.host, t.nodes[s.a.host].pending, t.links) && ReqsOk(t.nodes[s.a.host].nextReq, s.h.answers, t.links)
  {
    hide DrainLink;
    var ns, t := s.nodes[n], DoDrain(s, n, all);
    forall l | 0 <= l < |s.links|
      ensures HasReq(t.links[l].far) ==> t.links[l].far == s.links[l].far
      ensures !all || ns.pending == map[] ==> t.links[l].far == s.links[l].far && t.links[l].callee == s.links[l].callee
    {
      DrainKeeps(ns, all, l, s.links[l]);
    }
  }

  lemma DrainKeeps(ns: NodeState, all: bool, l: LinkId, k: Link)
    ensures var j := DrainLink(ns, all, l, k);
      j.callee == k.callee && (j.far == k.far || j.far.Ended?) && (!all || ns.pending == map[] ==> j.far == k.far)
  {
  }

  // ----- every run -----

  lemma StepSafeJoin(s: State, a: Action)
    requires Safe(s) && JoinEnabled(s, a)
    ensures Safe(JoinApply(s, a))
  {
    hide Safe;
    match a
    case JoinStart(n, room) => JoinStartSafe(s, n, room);
    case JoinDial(n, to) => JoinDialSafe(s, n, to);
    case JoinFail(n) => JoinFailSafe(s, n);
    case TakeWelcomeMsg(l) => TakeWelcomeSafe(s, l);
    case JoinRefused(l) => JoinRefusedSafe(s, l);
    case AttachHost(l) => AttachHostSafe(s, l);
    case TakeHello(l, expired) => TakeHelloSafe(s, l, expired);
    case Park(l) => ParkSafe(s, l);
    case Decline(n, q) => DeclineSafe(s, n, q);
    case SendDecline(l) => SendDeclineSafe(s, l);
    case Take(n, q) => TakeSafe(s, n, q);
  }

  lemma StepSafeApproval(s: State, a: Action)
    requires Safe(s) && ApprovalEnabled(s, a)
    ensures Safe(ApprovalApply(s, a))
  {
    hide Safe;
    match a
    case Snapshot(l) => SnapshotSafe(s, l);
    case Announce(l, m) => AnnounceSafe(s, l, m);
    case Enroll(l) => EnrollSafe(s, l);
    case Greet(l, ok) => GreetSafe(s, l, ok);
    case Admit(l) => AdmitSafe(s, l);
  }

  lemma StepSafeCall(s: State, a: Action)
    requires Safe(s) && CallEnabled(s, a)
    ensures Safe(CallApply(s, a))
  {
    hide Safe;
    match a
    case Dial(c) => DialSafe(s, c);
    case DialStop(c) => DialLostSafe(s, c);
    case DialLost(c) => DialLostSafe(s, c);
    case TakeMeshHello(l) => TakeMeshHelloSafe(s, l);
    case SeeRoster(l) => HeldSafe(s, l);
    case Expire(l) => HeldSafe(s, l);
    case CheckLinked(l) => CheckLinkedSafe(s, l);
    case Ack(l, ok) => AckSafe(s, l, ok);
    case AttachCaller(l) => AttachCallerSafe(s, l);
    case TakeAck(l) => TakeAckSafe(s, l);
    case CallFailed(l) => CallFailedSafe(s, l);
    case BadFirst(l) => BadFirstSafe(s, l);
  }

  lemma StepSafeRunning(s: State, a: Action)
    requires Safe(s) && RunningEnabled(s, a)
    ensures Safe(RunningApply(s, a))
  {
    hide Safe;
    match a
    case Read(l, e) => ReadSafe(s, l, e);
    case Eof(l, e) => EofSafe(s, l, e);
    case CloseGone(l, e) => CloseGoneSafe(s, l, e);
    case TellLeft(l, n) => TellLeftSafe(s, l, n);
    case Leave(n) => LeaveSafe(s, n);
    case DrainNode(n, all) => DrainSafe(s, n, all);
    case SayBye(l, e) => SayByeSafe(s, l, e);
    case Cut(l, i, j) => CutSafe(s, l, i, j);
  }

  lemma StepSafe(s: State, a: Action)
    requires Safe(s) && Enabled(s, a)
    ensures Safe(Apply(s, a))
  {
    hide Safe, JoinEnabled, JoinApply, ApprovalEnabled, ApprovalApply, CallEnabled, CallApply, RunningEnabled, RunningApply;
    if JoinEnabled(s, a) { StepSafeJoin(s, a); }
    else if ApprovalEnabled(s, a) { StepSafeApproval(s, a); }
    else if CallEnabled(s, a) { StepSafeCall(s, a); }
    else { StepSafeRunning(s, a); }
  }

  lemma {:induction false} RunSafe(path: seq<State>, acts: seq<Action>, i: nat)
    requires IsRun(path, acts) && i < |path|
    ensures Safe(path[i])
  {
    hide Safe, Enabled, Apply, Init;
    if i == 0 { InitSafe(path[0]); } else {
      RunSafe(path, acts, i - 1);
      StepSafe(path[i - 1], acts[i - 1]);
    }
  }
}
