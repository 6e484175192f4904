/** The state one node guards with its `state` lock, the critical sections that change it,
    and the node object whose methods perform them (core/src/mesh.rs). */
module MeshNode {

  // Ids and room codes are only ever compared, so numbers stand for them.
  // A `Room` stands for the text after `normalize_code`.
  type PeerId = nat
  type LinkId = nat
  type Req = nat
  type Room = nat

  datatype Role = Idle | Host | Joiner

  datatype Pending = Pending(peer: PeerId, link: LinkId)

  datatype NodeState = NodeState(
    role: Role,
    running: bool,
    room: Room,
    peers: map<PeerId, LinkId>,
    roster: set<PeerId>,
    pending: map<Req, Pending>,
    nextReq: Req)

  // ----- critical sections, as functions of the guarded state -----

  function StartJoin(n: NodeState, room: Room): NodeState {
    NodeState(Joiner, true, room, map[], {}, map[], n.nextReq)
  }

  function TakeWelcome(n: NodeState, room: Room, host: PeerId, list: set<PeerId>): NodeState {
    n.(room := room, roster := n.roster + {host} + list)
  }

  /** `attach_peer`: the `running` flag is read inside the lock. */
  function Attach(n: NodeState, peer: PeerId, link: LinkId): NodeState {
    if n.running then n.(roster := n.roster + {peer}, peers := n.peers[peer := link]) else n
  }

  /** The section of `peer_gone`; whether it removed an entry is `peer in n.peers`. */
  function Detach(n: NodeState, peer: PeerId): NodeState {
    if peer !in n.peers then n
    else n.(peers := n.peers - {peer}, roster := if n.role.Host? then n.roster - {peer} else n.roster)
  }

  function AddToRoster(n: NodeState, peer: PeerId): NodeState { n.(roster := n.roster + {peer}) }

  function DropFromRoster(n: NodeState, peer: PeerId): NodeState { n.(roster := n.roster - {peer}) }

  function ParkRequest(n: NodeState, peer: PeerId, link: LinkId): NodeState {
    n.(pending := n.pending[n.nextReq := Pending(peer, link)], nextReq := n.nextReq + 1)
  }

  function RemoveRequest(n: NodeState, req: Req): NodeState { n.(pending := n.pending - {req}) }

  function Stop(n: NodeState): NodeState { n.(running := false) }

  /** The drain of `leave` (`all`) or of `shutdown_internal`, which keeps `pending`. */
  function Drain(n: NodeState, all: bool): NodeState {
    n.(peers := map[], roster := {}, pending := if all then map[] else n.pending)
  }

  /** The node object: one method per critical section. */
  class Node {
    var role: Role
    var running: bool
    var room: Room
    var peers: map<PeerId, LinkId>
    var roster: set<PeerId>
    var pending: map<Req, Pending>
    var reqSeq: Req

    function State(): NodeState
      reads this
    {
      NodeState(role, running, room, peers, roster, pending, reqSeq)
    }

    constructor ()
      ensures State() == NodeState(Idle, false, 0, map[], {}, map[], 1)
    {
      role, running, room := Idle, false, 0;
      peers, roster, pending, reqSeq := map[], {}, map[], 1;
    }

    /** `join` refuses a node that is already in a room. */
    method BeginJoin(code: Room) returns (ok: bool)
      modifies this
      ensures ok == !old(running)
      ensures ok ==> role == Joiner && running && room == code && roster == {} && peers == map[] && pending == map[]
      ensures State() == if ok then StartJoin(old(State()), code) else old(State())
    {
      if running { return false; }
      role, room := Joiner, code;
      roster, peers, pending := {}, map[], map[];
      running := true;
      ok := true;
    }

    method AcceptWelcome(code: Room, host: PeerId, list: set<PeerId>)
      modifies this`room, this`roster
      ensures room == code && roster == old(roster) + {host} + list
      ensures State() == TakeWelcome(old(State()), code, host, list)
    {
      room := code;
      roster := roster + {host};
      roster := roster + list;
    }

    /** Returns whether the link was registered; the caller closes a refused one. */
    method AttachPeer(peer: PeerId, link: LinkId) returns (attached: bool)
      modifies this`roster, this`peers
      ensures attached == old(running)
      ensures attached ==> roster == old(roster) + {peer} && peers == old(peers)[peer := link]
      ensures State() == Attach(old(State()), peer, link)
    {
      if !running { return false; }
      roster := roster + {peer};
      peers := peers[peer := link];
      attached := true;
    }

    method PeerGone(peer: PeerId) returns (removed: bool, isHost: bool)
      modifies this`roster, this`peers
      ensures removed == (peer in old(peers)) && isHost == (role == Host)
      ensures peers == old(peers) - {peer}
      ensures roster == if removed && role == Host then old(roster) - {peer} else old(roster)
      ensures State() == Detach(old(State()), peer)
    {
      removed := peer in peers;
      peers := peers - {peer};
      if removed && role == Host { roster := roster - {peer}; }
      isHost := role == Host;
    }

    /** The checks of `on_hello`, in one section; a version mismatch was refused before it. */
    method AdmitsHello(me: PeerId, peer: PeerId, code: Room, expired: bool) returns (ok: bool)
      ensures ok <==> role == Host && code == room && !expired && peer !in roster && peer != me
      ensures ok <==> HelloPasses(State(), me, peer, code, expired)
    {
      var known := peer in roster || peer == me;
      if role != Host { return false; }
      if code != room { return false; }
      if expired { return false; }
      if known { return false; }
      ok := true;
    }

    method Park(peer: PeerId, link: LinkId) returns (req: Req)
      modifies this`pending, this`reqSeq
      ensures req == old(reqSeq) && reqSeq == req + 1
      ensures pending == old(pending)[req := Pending(peer, link)]
      ensures State() == ParkRequest(old(State()), peer, link)
    {
      req := reqSeq;
      reqSeq := reqSeq + 1;
      pending := pending[req := Pending(peer, link)];
    }

    /** The first section of `approve`: only one caller can take a request. */
    method TakeRequest(req: Req) returns (found: bool, p: Pending)
      modifies this`pending
      ensures found == (req in old(pending)) && (found ==> p == old(pending)[req])
      ensures pending == old(pending) - {req}
      ensures State() == RemoveRequest(old(State()), req)
    {
      found := req in pending;
      p := if found then pending[req] else Pending(0, 0);
      pending := pending - {req};
    }

    method Leave() returns (wasRunning: bool)
      modifies this`running
      ensures wasRunning == old(running) && !running
      ensures State() == Stop(old(State()))
    {
      wasRunning := running;
      running := false;
    }

    /** Returns the drained peer links and, for `leave`, the links of unanswered requests: those the
        caller closes. */
    method DrainAll(all: bool) returns (links: set<LinkId>, parked: set<LinkId>)
      modifies this`peers, this`roster, this`pending
      ensures peers == map[] && roster == {} && pending == if all then map[] else old(pending)
      ensures links == old(peers).Values
      ensures forall l :: l in parked <==> all && exists r :: r in old(pending) && old(pending)[r].link == l
      ensures State() == Drain(old(State()), all)
    {
      links := peers.Values;
      peers := map[];
      parked := {};
      if all {
        parked := set r | r in pending :: pending[r].link;
        pending := map[];
      }
      roster := {};
    }
  }

  predicate HelloPasses(n: NodeState, me: PeerId, peer: PeerId, room: Room, expired: bool) {
    n.role.Host? && room == n.room && !expired && peer !in n.roster && peer != me
  }
}
