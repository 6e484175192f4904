/** The room protocol as a transition system: every node, every link with its two FIFO queues,
    and every outstanding thread. One action is one critical section or one send; a receive is
    taken together with the first section its handler runs, because only that thread reads the
    queue (core/src/mesh.rs, locking rules at the top of the file). */
module MeshModel {
  import opened MeshNode

  datatype Msg =
    | Hello(room: Room, peer: PeerId)
    | MeshHello(room: Room, peer: PeerId)
    | Welcome(room: Room, host: PeerId, peers: set<PeerId>)
    | MeshAck(peer: PeerId)
    | Rejected
    | PeerJoined(peer: PeerId)
    | PeerLeft(peer: PeerId)
    | Bye

  datatype End = Caller | Callee

  datatype Kind = JoinLink | MeshLink

  /** Where the thread that owns one end of a link stands. */
  datatype Phase =
    // the end that dialled
    | AwaitWelcome
    | HostAttach(host: PeerId, list: set<PeerId>)
    | AwaitAck(target: PeerId, attempt: nat)
    // the end that answered
    | Fresh
    | Checked(peer: PeerId)
    | Parked(req: Req, peer: PeerId)
    | Declining(req: Req)
    | Taken(req: Req, peer: PeerId)
    | Announcing(req: Req, peer: PeerId, list: set<PeerId>, todo: set<LinkId>)
    | Greeting(req: Req, peer: PeerId, list: set<PeerId>)
    | Admitting(peer: PeerId)
    | Held(peer: PeerId)
    | Seen(peer: PeerId)
    | Acking(peer: PeerId)
    | CallerAttach(peer: PeerId)
    // either end
    | Reading(peer: PeerId)
    | Leaving(peer: PeerId, again: bool)
    | Ended

  /** `up` runs from caller to callee. A `cut` link takes no new message; what is queued may
      still be read, or be lost by a further `Cut`. */
  datatype Link = Link(
    kind: Kind, caller: PeerId, callee: PeerId,
    up: seq<Msg>, down: seq<Msg>, cut: bool,
    near: Phase, far: Phase)

  datatype Call = Call(from: PeerId, to: PeerId, attempt: nat)

  /** History variables: no guard reads them. */
  datatype Approvals = Approvals(
    host: PeerId,
    accepted: set<PeerId>,                      // accepted by `approve`
    lists: map<PeerId, set<PeerId>>,            // what each approval read as the connected peers
    rank: map<PeerId, nat>)                     // in which order those reads happened

  datatype History = History(
    answers: seq<Req>,                          // requests answered by Welcome or Rejected
    joinLink: map<PeerId, LinkId>,
    meshLink: map<(PeerId, PeerId), LinkId>)

  datatype State = State(
    a: Approvals,
    h: History,
    nodes: map<PeerId, NodeState>,
    links: seq<Link>,
    joining: set<PeerId>,                       // `join` calls that have not connected yet
    dials: set<Call>,                           // `dial_peer` threads about to connect
    drains: set<(PeerId, bool)>,                // teardowns between the flag and the drain
    byes: set<(LinkId, End)>,                   // links `leave` has yet to say Bye on
    lefts: set<(LinkId, PeerId)>)               // PeerLeft messages the host has yet to send

  // ----- helpers -----

  function NodeAt(k: Link, e: End): PeerId { if e.Caller? then k.caller else k.callee }

  function PhaseAt(k: Link, e: End): Phase { if e.Caller? then k.near else k.far }

  function Inbox(k: Link, e: End): seq<Msg> { if e.Caller? then k.down else k.up }

  function SetPhase(k: Link, e: End, p: Phase): Link { if e.Caller? then k.(near := p) else k.(far := p) }

  function Pop(k: Link, e: End): Link
    requires Inbox(k, e) != []
  {
    if e.Caller? then k.(down := k.down[1..]) else k.(up := k.up[1..])
  }

  /** Send `m` from end `e`; a cut link drops it. */
  function Push(k: Link, e: End, m: Msg): Link {
    if k.cut then k else if e.Caller? then k.(up := k.up + [m]) else k.(down := k.down + [m])
  }

  function EndOf(k: Link, n: PeerId): End { if k.callee == n then Callee else Caller }

  function Close(k: Link): Link { k.(cut := true) }

  /** `reject`: tell the caller and close. */
  function Refuse(k: Link): Link { Close(Push(k, Callee, Rejected)).(far := Ended) }

  function PutLink(s: State, l: LinkId, k: Link): State
    requires l < |s.links|
  {
    s.(links := s.links[l := k])
  }

  function PutNode(s: State, n: PeerId, ns: NodeState): State { s.(nodes := s.nodes[n := ns]) }

  predicate OnLink(s: State, l: LinkId) {
    l < |s.links| && s.links[l].caller in s.nodes && s.links[l].callee in s.nodes
  }

  /** `attach_peer` run by the thread at end `e` of link `l`. */
  function AttachAt(s: State, l: LinkId, e: End, peer: PeerId): State
    requires OnLink(s, l)
  {
    var n := NodeAt(s.links[l], e);
    if s.nodes[n].running then
      PutLink(PutNode(s, n, Attach(s.nodes[n], peer, l)), l, SetPhase(s.links[l], e, Reading(peer)))
    else
      PutLink(s, l, Close(SetPhase(s.links[l], e, Ended)))
  }

  /** The section of `peer_gone`; `again` when the reader goes on reading afterwards. */
  function GoneAt(s: State, l: LinkId, e: End, peer: PeerId, again: bool): State
    requires OnLink(s, l)
  {
    var n := NodeAt(s.links[l], e);
    var phase := if peer in s.nodes[n].peers then Leaving(peer, again)
                 else if again then Reading(peer) else Ended;
    PutLink(PutNode(s, n, Detach(s.nodes[n], peer)), l, SetPhase(s.links[l], e, phase))
  }

  /** `dial_peer` makes at most three attempts, and reads `running` before each: that read is taken
      together with the failure, or the attach, that comes before it. */
  function Retry(ns: NodeState, c: Call): set<Call> {
    if ns.running && c.attempt < 2 then {c.(attempt := c.attempt + 1)} else {}
  }

  function FirstCalls(ns: NodeState, n: PeerId, list: set<PeerId>): set<Call> {
    if ns.running then set p | p in list :: Call(n, p, 0) else {}
  }

  predicate Dropped(k: Link, e: End) { Inbox(k, e) == [] && k.cut }

  // ----- joining -----

  predicate CanJoinStart(s: State, n: PeerId) { n in s.nodes && s.nodes[n].role.Idle? }

  function DoJoinStart(s: State, n: PeerId, room: Room): State
    requires CanJoinStart(s, n)
  {
    PutNode(s, n, StartJoin(s.nodes[n], room)).(joining := s.joining + {n})
  }

  /** Connect to whatever node the code named and send Hello. */
  predicate CanJoinDial(s: State, n: PeerId, to: PeerId) {
    n in s.joining && n in s.nodes && to in s.nodes && s.nodes[to].running
  }

  function DoJoinDial(s: State, n: PeerId, to: PeerId): State
    requires CanJoinDial(s, n, to)
  {
    var k := Link(JoinLink, n, to, [Hello(s.nodes[n].room, n)], [], false, AwaitWelcome, Fresh);
    s.(links := s.links + [k], joining := s.joining - {n},
       h := s.h.(joinLink := s.h.joinLink[n := |s.links|]))
  }

  predicate CanJoinFail(s: State, n: PeerId) { n in s.joining && n in s.nodes }

  function DoJoinFail(s: State, n: PeerId): State
    requires CanJoinFail(s, n)
  {
    PutNode(s, n, Stop(s.nodes[n])).(joining := s.joining - {n}, drains := s.drains + {(n, false)})
  }

  predicate CanTakeWelcome(s: State, l: LinkId) {
    OnLink(s, l) && s.links[l].near.AwaitWelcome? && s.links[l].down != [] && s.links[l].down[0].Welcome?
  }

  function DoTakeWelcome(s: State, l: LinkId): State
    requires CanTakeWelcome(s, l)
  {
    var k := s.links[l];
    var m := k.down[0];
    PutLink(PutNode(s, k.caller, TakeWelcome(s.nodes[k.caller], m.room, m.host, m.peers)),
            l, Pop(k, Caller).(near := HostAttach(m.host, m.peers)))
  }

  /** Rejected, an unexpected reply, or a lost link while waiting for the host. */
  predicate CanJoinRefused(s: State, l: LinkId) {
    OnLink(s, l) && s.links[l].near.AwaitWelcome? &&
    (Dropped(s.links[l], Caller) || (s.links[l].down != [] && !s.links[l].down[0].Welcome?))
  }

  function DoJoinRefused(s: State, l: LinkId): State
    requires CanJoinRefused(s, l)
  {
    var k := s.links[l];
    PutLink(PutNode(s, k.caller, Stop(s.nodes[k.caller])), l, Close(k).(near := Ended, down := []))
      .(drains := s.drains + {(k.caller, false)})
  }

  predicate CanAttachHost(s: State, l: LinkId) { OnLink(s, l) && s.links[l].near.HostAttach? }

  function DoAttachHost(s: State, l: LinkId): State
    requires CanAttachHost(s, l)
  {
    var k := s.links[l];
    AttachAt(s, l, Caller, k.near.host)
      .(dials := s.dials + FirstCalls(s.nodes[k.caller], k.caller, k.near.list))
  }

  // ----- admission at the host -----

  predicate CanTakeHello(s: State, l: LinkId) {
    OnLink(s, l) && s.links[l].far.Fresh? && s.links[l].up != [] && s.links[l].up[0].Hello?
  }

  function DoTakeHello(s: State, l: LinkId, expired: bool): State
    requires CanTakeHello(s, l)
  {
    var k := s.links[l];
    var m := k.up[0];
    if HelloPasses(s.nodes[k.callee], k.callee, m.peer, m.room, expired)
    then PutLink(s, l, Pop(k, Callee).(far := Checked(m.peer)))
    else PutLink(s, l, Refuse(Pop(k, Callee)))
  }

  predicate CanPark(s: State, l: LinkId) { OnLink(s, l) && s.links[l].far.Checked? }

  function DoPark(s: State, l: LinkId): State
    requires CanPark(s, l)
  {
    var k := s.links[l];
    var ns := s.nodes[k.callee];
    PutLink(PutNode(s, k.callee, ParkRequest(ns, k.far.peer, l)), l, k.(far := Parked(ns.nextReq, k.far.peer)))
  }

  predicate CanDecide(s: State, n: PeerId, req: Req) {
    n in s.nodes && req in s.nodes[n].pending && s.nodes[n].pending[req].link < |s.links|
  }

  function DoDecline(s: State, n: PeerId, req: Req): State
    requires CanDecide(s, n, req)
  {
    var l := s.nodes[n].pending[req].link;
    PutLink(PutNode(s, n, RemoveRequest(s.nodes[n], req)), l, s.links[l].(far := Declining(req)))
  }

  predicate CanSendDecline(s: State, l: LinkId) { OnLink(s, l) && s.links[l].far.Declining? }

  function DoSendDecline(s: State, l: LinkId): State
    requires CanSendDecline(s, l)
  {
    PutLink(s, l, Refuse(s.links[l])).(h := s.h.(answers := s.h.answers + [s.links[l].far.req]))
  }

  function DoTake(s: State, n: PeerId, req: Req): State
    requires CanDecide(s, n, req)
  {
    var p := s.nodes[n].pending[req];
    PutLink(PutNode(s, n, RemoveRequest(s.nodes[n], req)), p.link, s.links[p.link].(far := Taken(req, p.peer)))
      .(a := s.a.(accepted := s.a.accepted + {p.peer}))
  }

  /** `connected_peers()`: the list the newcomer will be handed. */
  predicate CanSnapshot(s: State, l: LinkId) { OnLink(s, l) && s.links[l].far.Taken? }

  function DoSnapshot(s: State, l: LinkId): State
    requires CanSnapshot(s, l)
  {
    var k := s.links[l];
    var peers := s.nodes[k.callee].peers;
    var p := k.far.peer;
    PutLink(s, l, k.(far := Announcing(k.far.req, p, peers.Keys, peers.Values)))
      .(a := s.a.(lists := s.a.lists[p := peers.Keys], rank := s.a.rank[p := |s.a.rank|]))
  }

  /** Send PeerJoined on one of the listed links; their order is arbitrary. */
  predicate CanAnnounce(s: State, l: LinkId, m: LinkId) {
    OnLink(s, l) && s.links[l].far.Announcing? && m in s.links[l].far.todo && m < |s.links|
  }

  function DoAnnounce(s: State, l: LinkId, m: LinkId): State
    requires CanAnnounce(s, l, m)
  {
    var k := s.links[l];
    var t := PutLink(s, l, k.(far := k.far.(todo := k.far.todo - {m})));
    PutLink(t, m, Push(t.links[m], EndOf(t.links[m], k.callee), PeerJoined(k.far.peer)))
  }

  predicate CanEnroll(s: State, l: LinkId) {
    OnLink(s, l) && s.links[l].far.Announcing? && s.links[l].far.todo == {}
  }

  function DoEnroll(s: State, l: LinkId): State
    requires CanEnroll(s, l)
  {
    var k := s.links[l];
    PutLink(PutNode(s, k.callee, AddToRoster(s.nodes[k.callee], k.far.peer)),
            l, k.(far := Greeting(k.far.req, k.far.peer, k.far.list)))
  }

  /** Send Welcome; `ok` is false when a cut link made the send fail. */
  predicate CanGreet(s: State, l: LinkId, ok: bool) {
    OnLink(s, l) && s.links[l].far.Greeting? && (ok || s.links[l].cut)
  }

  function DoGreet(s: State, l: LinkId, ok: bool): State
    requires CanGreet(s, l, ok)
  {
    var k := s.links[l];
    var sent := if ok then Push(k, Callee, Welcome(s.nodes[k.callee].room, k.callee, k.far.list)).(far := Admitting(k.far.peer))
                else k.(far := Ended);
    PutLink(s, l, sent).(h := s.h.(answers := s.h.answers + [k.far.req]))
  }

  predicate CanAdmit(s: State, l: LinkId) { OnLink(s, l) && s.links[l].far.Admitting? }

  function DoAdmit(s: State, l: LinkId): State
    requires CanAdmit(s, l)
  {
    AttachAt(s, l, Callee, s.links[l].far.peer)
  }

  // ----- mesh calls -----

  /** The caller may have left since its thread read `running`. */
  predicate CanDial(s: State, c: Call) {
    c in s.dials && c.from in s.nodes && c.to in s.nodes && s.nodes[c.to].running
  }

  function DoDial(s: State, c: Call): State
    requires CanDial(s, c)
  {
    var k := Link(MeshLink, c.from, c.to, [MeshHello(s.nodes[c.from].room, c.from)], [], false,
                  AwaitAck(c.to, c.attempt), Fresh);
    s.(links := s.links + [k], dials := s.dials - {c},
       h := s.h.(meshLink := s.h.meshLink[(c.from, c.to) := |s.links|]))
  }

  predicate CanDialStop(s: State, c: Call) { c in s.dials && c.from in s.nodes && !s.nodes[c.from].running }

  function DoDialStop(s: State, c: Call): State { s.(dials := s.dials - {c}) }

  predicate CanDialLost(s: State, c: Call) { c in s.dials && c.from in s.nodes }

  function DoDialLost(s: State, c: Call): State
    requires CanDialLost(s, c)
  {
    s.(dials := s.dials - {c} + Retry(s.nodes[c.from], c))
  }

  predicate CanTakeMeshHello(s: State, l: LinkId) {
    OnLink(s, l) && s.links[l].far.Fresh? && s.links[l].up != [] && s.links[l].up[0].MeshHello?
  }

  function DoTakeMeshHello(s: State, l: LinkId): State
    requires CanTakeMeshHello(s, l)
  {
    var k := s.links[l];
    var m := k.up[0];
    if m.room == s.nodes[k.callee].room
    then PutLink(s, l, Pop(k, Callee).(far := Held(m.peer)))
    else PutLink(s, l, Refuse(Pop(k, Callee)))
  }

  predicate CanSeeRoster(s: State, l: LinkId) {
    OnLink(s, l) && s.links[l].far.Held? && s.links[l].far.peer in s.nodes[s.links[l].callee].roster
  }

  function DoSeeRoster(s: State, l: LinkId): State
    requires CanSeeRoster(s, l)
  {
    PutLink(s, l, s.links[l].(far := Seen(s.links[l].far.peer)))
  }

  /** The grace period ran out with the caller still not on the roster. */
  predicate CanExpire(s: State, l: LinkId) {
    OnLink(s, l) && s.links[l].far.Held? && s.links[l].far.peer !in s.nodes[s.links[l].callee].roster
  }

  function DoExpire(s: State, l: LinkId): State
    requires CanExpire(s, l)
  {
    PutLink(s, l, Refuse(s.links[l]))
  }

  predicate CanCheckLinked(s: State, l: LinkId) { OnLink(s, l) && s.links[l].far.Seen? }

  function DoCheckLinked(s: State, l: LinkId): State
    requires CanCheckLinked(s, l)
  {
    var k := s.links[l];
    if k.far.peer in s.nodes[k.callee].peers then PutLink(s, l, Refuse(k))
    else PutLink(s, l, k.(far := Acking(k.far.peer)))
  }

  predicate CanAck(s: State, l: LinkId, ok: bool) {
    OnLink(s, l) && s.links[l].far.Acking? && (ok || s.links[l].cut)
  }

  function DoAck(s: State, l: LinkId, ok: bool): State
    requires CanAck(s, l, ok)
  {
    var k := s.links[l];
    if ok then PutLink(s, l, Push(k, Callee, MeshAck(k.callee)).(far := CallerAttach(k.far.peer)))
    else PutLink(s, l, Close(k).(far := Ended))
  }

  predicate CanAttachCaller(s: State, l: LinkId) { OnLink(s, l) && s.links[l].far.CallerAttach? }

  function DoAttachCaller(s: State, l: LinkId): State
    requires CanAttachCaller(s, l)
  {
    AttachAt(s, l, Callee, s.links[l].far.peer)
  }

  predicate CanTakeAck(s: State, l: LinkId) {
    OnLink(s, l) && s.links[l].near.AwaitAck? && s.links[l].down != [] && s.links[l].down[0].MeshAck?
  }

  function DoTakeAck(s: State, l: LinkId): State
    requires CanTakeAck(s, l)
  {
    var k := s.links[l];
    AttachAt(PutLink(s, l, Pop(k, Caller)), l, Caller, k.down[0].peer)
  }

  /** The call was rejected, got an unexpected reply, or its link was lost. */
  predicate CanCallFailed(s: State, l: LinkId) {
    OnLink(s, l) && s.links[l].near.AwaitAck? &&
    (Dropped(s.links[l], Caller) || (s.links[l].down != [] && !s.links[l].down[0].MeshAck?))
  }

  function DoCallFailed(s: State, l: LinkId): State
    requires CanCallFailed(s, l)
  {
    var k := s.links[l];
    PutLink(s, l, Close(k).(near := Ended, down := []))
      .(dials := s.dials + Retry(s.nodes[k.caller], Call(k.caller, k.near.target, k.near.attempt)))
  }

  predicate CanBadFirst(s: State, l: LinkId) {
    OnLink(s, l) && s.links[l].far.Fresh? &&
    (Dropped(s.links[l], Callee) ||
     (s.links[l].up != [] && !s.links[l].up[0].Hello? && !s.links[l].up[0].MeshHello?))
  }

  function DoBadFirst(s: State, l: LinkId): State
    requires CanBadFirst(s, l)
  {
    PutLink(s, l, Refuse(s.links[l]))
  }

  // ----- running links -----

  predicate CanRead(s: State, l: LinkId, e: End) {
    OnLink(s, l) && PhaseAt(s.links[l], e).Reading? && Inbox(s.links[l], e) != []
  }

  function DoRead(s: State, l: LinkId, e: End): State
    requires CanRead(s, l, e)
  {
    var k := s.links[l];
    var n := NodeAt(k, e);
    var t := PutLink(s, l, Pop(k, e));
    match Inbox(k, e)[0]
    case PeerJoined(q) => PutNode(t, n, AddToRoster(s.nodes[n], q))
    case PeerLeft(q) => PutNode(t, n, DropFromRoster(s.nodes[n], q))
    case Bye => GoneAt(t, l, e, PhaseAt(k, e).peer, true)
    case _ => t
  }

  predicate CanEof(s: State, l: LinkId, e: End) {
    OnLink(s, l) && PhaseAt(s.links[l], e).Reading? && Dropped(s.links[l], e)
  }

  function DoEof(s: State, l: LinkId, e: End): State
    requires CanEof(s, l, e)
  {
    GoneAt(s, l, e, PhaseAt(s.links[l], e).peer, false)
  }

  /** The rest of `peer_gone`: close, and at the host list who has to be told. */
  predicate CanCloseGone(s: State, l: LinkId, e: End) { OnLink(s, l) && PhaseAt(s.links[l], e).Leaving? }

  function DoCloseGone(s: State, l: LinkId, e: End): State
    requires CanCloseGone(s, l, e)
  {
    var k := s.links[l];
    var p := PhaseAt(k, e);
    var ns := s.nodes[NodeAt(k, e)];
    var told := if ns.role.Host? then set m | m in ns.peers.Values :: (m, p.peer) else {};
    PutLink(s, l, Close(SetPhase(k, e, if p.again then Reading(p.peer) else Ended))).(lefts := s.lefts + told)
  }

  predicate CanTellLeft(s: State, m: LinkId, peer: PeerId) { (m, peer) in s.lefts && m < |s.links| }

  function DoTellLeft(s: State, m: LinkId, peer: PeerId): State
    requires CanTellLeft(s, m, peer)
  {
    PutLink(s, m, Push(s.links[m], EndOf(s.links[m], s.a.host), PeerLeft(peer))).(lefts := s.lefts - {(m, peer)})
  }

  // ----- teardown and failure -----

  predicate CanLeave(s: State, n: PeerId) { n in s.nodes && s.nodes[n].running }

  function DoLeave(s: State, n: PeerId): State
    requires CanLeave(s, n)
  {
    PutNode(s, n, Stop(s.nodes[n])).(drains := s.drains + {(n, true)})
  }

  predicate CanDrain(s: State, n: PeerId, all: bool) { (n, all) in s.drains && n in s.nodes }

  /** What the drain of node `n` does to link `l`. */
  function DrainLink(ns: NodeState, all: bool, l: LinkId, k: Link): Link {
    if all then
      if exists r | r in ns.pending :: ns.pending[r].link == l then Close(k).(far := Ended) else k
    else if l in ns.peers.Values then Close(k) else k
  }

  function DoDrain(s: State, n: PeerId, all: bool): State
    requires CanDrain(s, n, all)
  {
    var ns := s.nodes[n];
    PutNode(s, n, Drain(ns, all)).(
      links := seq(|s.links|, l requires 0 <= l < |s.links| => DrainLink(ns, all, l, s.links[l])),
      drains := s.drains - {(n, all)},
      byes := if all then s.byes + set m | m in ns.peers.Values && m < |s.links| :: (m, EndOf(s.links[m], n)) else s.byes)
  }

  predicate CanSayBye(s: State, m: LinkId, e: End) { (m, e) in s.byes && m < |s.links| }

  function DoSayBye(s: State, m: LinkId, e: End): State
    requires CanSayBye(s, m, e)
  {
    PutLink(s, m, Close(Push(s.links[m], e, Bye))).(byes := s.byes - {(m, e)})
  }

  /** The link breaks, and any suffix of what is in flight is lost. */
  predicate CanCut(s: State, l: LinkId, up: nat, down: nat) {
    l < |s.links| && up <= |s.links[l].up| && down <= |s.links[l].down|
  }

  function DoCut(s: State, l: LinkId, up: nat, down: nat): State
    requires CanCut(s, l, up, down)
  {
    var k := s.links[l];
    PutLink(s, l, Close(k).(up := k.up[..up], down := k.down[..down]))
  }

  // ----- the transition system -----

  datatype Action =
    | JoinStart(n: PeerId, room: Room) | JoinDial(n: PeerId, to: PeerId) | JoinFail(n: PeerId)
    | TakeWelcomeMsg(l: LinkId) | JoinRefused(l: LinkId) | AttachHost(l: LinkId)
    | TakeHello(l: LinkId, expired: bool) | Park(l: LinkId)
    | Decline(n: PeerId, q: Req) | SendDecline(l: LinkId)
    | Take(n: PeerId, q: Req) | Snapshot(l: LinkId) | Announce(l: LinkId, m: LinkId)
    | Enroll(l: LinkId) | Greet(l: LinkId, ok: bool) | Admit(l: LinkId)
    | Dial(c: Call) | DialStop(c: Call) | DialLost(c: Call)
    | TakeMeshHello(l: LinkId) | SeeRoster(l: LinkId) | Expire(l: LinkId) | CheckLinked(l: LinkId)
    | Ack(l: LinkId, ok: bool) | AttachCaller(l: LinkId) | TakeAck(l: LinkId) | CallFailed(l: LinkId)
    | BadFirst(l: LinkId)
    | Read(l: LinkId, e: End) | Eof(l: LinkId, e: End) | CloseGone(l: LinkId, e: End)
    | TellLeft(l: LinkId, n: PeerId)
    | Leave(n: PeerId) | DrainNode(n: PeerId, all: bool) | SayBye(l: LinkId, e: End)
    | Cut(l: LinkId, keepUp: nat, keepDown: nat)

  /** Joining a room and deciding about a request. */
  predicate JoinEnabled(s: State, a: Action) {
    match a
    case JoinStart(n, _) => CanJoinStart(s, n)
    case JoinDial(n, to) => CanJoinDial(s, n, to)
    case JoinFail(n) => CanJoinFail(s, n)
    case TakeWelcomeMsg(l) => CanTakeWelcome(s, l)
    case JoinRefused(l) => CanJoinRefused(s, l)
    case AttachHost(l) => CanAttachHost(s, l)
    case TakeHello(l, _) => CanTakeHello(s, l)
    case Park(l) => CanPark(s, l)
    case Decline(n, q) => CanDecide(s, n, q)
    case SendDecline(l) => CanSendDecline(s, l)
    case Take(n, q) => CanDecide(s, n, q)
    case _ => false
  }

  function JoinApply(s: State, a: Action): State
    requires JoinEnabled(s, a)
  {
    match a
    case JoinStart(n, room) => DoJoinStart(s, n, room)
    case JoinDial(n, to) => DoJoinDial(s, n, to)
    case JoinFail(n) => DoJoinFail(s, n)
    case TakeWelcomeMsg(l) => DoTakeWelcome(s, l)
    case JoinRefused(l) => DoJoinRefused(s, l)
    case AttachHost(l) => DoAttachHost(s, l)
    case TakeHello(l, expired) => DoTakeHello(s, l, expired)
    case Park(l) => DoPark(s, l)
    case Decline(n, q) => DoDecline(s, n, q)
    case SendDecline(l) => DoSendDecline(s, l)
    case Take(n, q) => DoTake(s, n, q)
  }

  /** Carrying out an approval. */
  predicate ApprovalEnabled(s: State, a: Action) {
    match a
    case Snapshot(l) => CanSnapshot(s, l)
    case Announce(l, m) => CanAnnounce(s, l, m)
    case Enroll(l) => CanEnroll(s, l)
    case Greet(l, ok) => CanGreet(s, l, ok)
    case Admit(l) => CanAdmit(s, l)
    case _ => false
  }

  function ApprovalApply(s: State, a: Action): State
    requires ApprovalEnabled(s, a)
  {
    match a
    case Snapshot(l) => DoSnapshot(s, l)
    case Announce(l, m) => DoAnnounce(s, l, m)
    case Enroll(l) => DoEnroll(s, l)
    case Greet(l, ok) => DoGreet(s, l, ok)
    case Admit(l) => DoAdmit(s, l)
  }

  /** Mesh calls. */
  predicate CallEnabled(s: State, a: Action) {
    match a
    case Dial(c) => CanDial(s, c)
    case DialStop(c) => CanDialStop(s, c)
    case DialLost(c) => CanDialLost(s, c)
    case TakeMeshHello(l) => CanTakeMeshHello(s, l)
    case SeeRoster(l) => CanSeeRoster(s, l)
    case Expire(l) => CanExpire(s, l)
    case CheckLinked(l) => CanCheckLinked(s, l)
    case Ack(l, ok) => CanAck(s, l, ok)
    case AttachCaller(l) => CanAttachCaller(s, l)
    case TakeAck(l) => CanTakeAck(s, l)
    case CallFailed(l) => CanCallFailed(s, l)
    case BadFirst(l) => CanBadFirst(s, l)
    case _ => false
  }

  function CallApply(s: State, a: Action): State
    requires CallEnabled(s, a)
  {
    match a
    case Dial(c) => DoDial(s, c)
    case DialStop(c) => DoDialStop(s, c)
    case DialLost(c) => DoDialLost(s, c)
    case TakeMeshHello(l) => DoTakeMeshHello(s, l)
    case SeeRoster(l) => DoSeeRoster(s, l)
    case Expire(l) => DoExpire(s, l)
    case CheckLinked(l) => DoCheckLinked(s, l)
    case Ack(l, ok) => DoAck(s, l, ok)
    case AttachCaller(l) => DoAttachCaller(s, l)
    case TakeAck(l) => DoTakeAck(s, l)
    case CallFailed(l) => DoCallFailed(s, l)
    case BadFirst(l) => DoBadFirst(s, l)
  }

  /** Running links, teardown and failure. */
  predicate RunningEnabled(s: State, a: Action) {
    match a
    case Read(l, e) => CanRead(s, l, e)
    case Eof(l, e) => CanEof(s, l, e)
    case CloseGone(l, e) => CanCloseGone(s, l, e)
    case TellLeft(l, n) => CanTellLeft(s, l, n)
    case Leave(n) => CanLeave(s, n)
    case DrainNode(n, all) => CanDrain(s, n, all)
    case SayBye(l, e) => CanSayBye(s, l, e)
    case Cut(l, i, j) => CanCut(s, l, i, j)
    case _ => false
  }

  function RunningApply(s: State, a: Action): State
    requires RunningEnabled(s, a)
  {
    match a
    case Read(l, e) => DoRead(s, l, e)
    case Eof(l, e) => DoEof(s, l, e)
    case CloseGone(l, e) => DoCloseGone(s, l, e)
    case TellLeft(l, n) => DoTellLeft(s, l, n)
    case Leave(n) => DoLeave(s, n)
    case DrainNode(n, all) => DoDrain(s, n, all)
    case SayBye(l, e) => DoSayBye(s, l, e)
    case Cut(l, i, j) => DoCut(s, l, i, j)
  }

  predicate Enabled(s: State, a: Action) {
    JoinEnabled(s, a) || ApprovalEnabled(s, a) || CallEnabled(s, a) || RunningEnabled(s, a)
  }

  function Apply(s: State, a: Action): State
    requires Enabled(s, a)
  {
    if JoinEnabled(s, a) then JoinApply(s, a)
    else if ApprovalEnabled(s, a) then ApprovalApply(s, a)
    else if CallEnabled(s, a) then CallApply(s, a)
    else RunningApply(s, a)
  }

  /** One host with an open room, everybody else idle, no link. */
  predicate Init(s: State) {
    && s.a == Approvals(s.a.host, {}, map[], map[]) && s.h == History([], map[], map[])
    && s.a.host in s.nodes
    && (forall n | n in s.nodes ::
          var ns := s.nodes[n];
          && ns.peers == map[] && ns.roster == {} && ns.pending == map[]
          && (if n == s.a.host then ns.role.Host? && ns.running else ns.role.Idle? && !ns.running))
    && s.links == [] && s.joining == {} && s.dials == {} && s.drains == {} && s.byes == {} && s.lefts == {}
  }

  /** A run: `path` lists the states, `acts` the actions between them. */
  predicate IsRun(path: seq<State>, acts: seq<Action>) {
    && |path| == |acts| + 1
    && Init(path[0])
    && forall i | 0 <= i < |acts| :: Enabled(path[i], acts[i]) && path[i + 1] == Apply(path[i], acts[i])
  }
}
