/** Who gets past the host's desk, and past the member that is called: what an answer was given for, and
    what a refusal says. In every run, whatever else fails and whoever leaves. */
module MeshAdmission {
  import opened MeshNode
  import opened MeshModel
  import opened MeshSafety
  import opened MeshTheorems
  import opened MeshFarewell

  // ----- how the answering thread gets from one place to the next -----

  /** The Hello at the head of the link is for the host of this room and from nobody it knows. */
  ghost predicate Admissible(s: State, l: LinkId) {
    OnLink(s, l) && s.links[l].up != [] && s.links[l].up[0].Hello? &&
    var k, m := s.links[l], s.links[l].up[0];
    k.callee == s.a.host && m.room == s.nodes[k.callee].room && m.peer != s.a.host && m.peer !in s.nodes[k.callee].roster
  }

  /** A call for this room. */
  ghost predicate Called(s: State, l: LinkId, p: PeerId) {
    OnLink(s, l) && s.links[l].up != [] && s.links[l].up[0] == MeshHello(s.nodes[s.links[l].callee].room, p)
  }

  ghost predicate Known(s: State, l: LinkId, p: PeerId) { OnLink(s, l) && p in s.nodes[s.links[l].callee].roster }

  ghost predicate Unlinked(s: State, l: LinkId, p: PeerId) { OnLink(s, l) && p !in s.nodes[s.links[l].callee].peers }

  /** The members the node answering link `l` holds, and its links to them. */
  ghost predicate Listed(s: State, l: LinkId, list: set<PeerId>, todo: set<LinkId>) {
    OnLink(s, l) && list == s.nodes[s.links[l].callee].peers.Keys && todo == s.nodes[s.links[l].callee].peers.Values
  }

  /** Where the thread can have come from. */
  ghost predicate Came(s: State, a: Action, l: LinkId, from: Phase, to: Phase) {
    match to
    case Fresh => false
    case Checked(p) => a == TakeHello(l, false) && Admissible(s, l) && p == s.links[l].up[0].peer
    case Parked(_, p) => a == Park(l) && from == Checked(p)
    case Declining(r) => a.Decline? && a.q == r && from.Parked? && from.req == r
    case Taken(r, p) => a.Take? && a.q == r && from == Parked(r, p)
    case Announcing(r, p, list, todo) =>
      || (a == Snapshot(l) && from == Taken(r, p) && Listed(s, l, list, todo))
      || (a.Announce? && a.l == l && from.Announcing? && todo == from.todo - {a.m} && from == Announcing(r, p, list, from.todo))
    case Greeting(r, p, list) => a == Enroll(l) && from == Announcing(r, p, list, {})
    case Held(p) => a == TakeMeshHello(l) && Called(s, l, p)
    case Seen(p) => a == SeeRoster(l) && from == Held(p) && Known(s, l, p)
    case Acking(p) => a == CheckLinked(l) && from == Seen(p) && Unlinked(s, l, p)
    case CallerAttach(p) => a == Ack(l, true) && from == Acking(p)
    case Admitting(p) => a == Greet(l, true) && from.Greeting? && from.peer == p
    case Reading(p) => from.Admitting? || from.CallerAttach? || from.Leaving?
    case _ => true
  }

  ghost predicate FarMoves(s: State, a: Action, t: State, l: LinkId)
    requires l < |s.links|
  {
    l < |t.links| &&
    var from, to := s.links[l].far, t.links[l].far;
    to == from || (Came(s, a, l, from, to) && !from.Ended? && (from.Declining? ==> a == SendDecline(l)))
  }

  lemma FarJoin(s: State, a: Action, l: LinkId)
    requires Safe(s) && JoinEnabled(s, a) && l < |s.links| && !a.TakeHello?
    ensures FarMoves(s, a, JoinApply(s, a), l)
  {
    hide Safe, Attach, FirstCalls, TakeWelcome, StartJoin, Admissible, Called, Known, Unlinked;
    if a.Decline? || a.Take? { DeskEntry(s, a.n, a.q); }
  }

  lemma FarHello(s: State, m: LinkId, expired: bool, l: LinkId)
    requires Safe(s) && CanTakeHello(s, m) && l < |s.links|
    ensures FarMoves(s, TakeHello(m, expired), DoTakeHello(s, m, expired), l)
  {
    hide LinksOk, ListsOk, EndsOk, JoinsOk, CallsOk, DeskOk, ReqsOk;
    assert NodeOk(s.a, s.links[m].callee, s.nodes[s.links[m].callee]);
  }

  lemma FarApproval(s: State, a: Action, l: LinkId)
    requires ApprovalEnabled(s, a) && l < |s.links|
    ensures FarMoves(s, a, ApprovalApply(s, a), l)
  {
    hide Attach, Admissible, Called, Known, Unlinked;
  }

  predicate Answers(a: Action) { a.TakeMeshHello? || a.SeeRoster? || a.Expire? || a.CheckLinked? || a.Ack? || a.BadFirst? }

  lemma FarAnswer(s: State, a: Action, l: LinkId)
    requires CallEnabled(s, a) && l < |s.links| && Answers(a)
    ensures FarMoves(s, a, CallApply(s, a), l)
  {
    hide Admissible;
  }

  lemma FarDial(s: State, a: Action, l: LinkId)
    requires CallEnabled(s, a) && l < |s.links| && !Answers(a)
    ensures FarMoves(s, a, CallApply(s, a), l)
  {
    hide Attach, Retry, Admissible, Called, Known, Unlinked;
  }

  lemma FarCall(s: State, a: Action, l: LinkId)
    requires CallEnabled(s, a) && l < |s.links|
    ensures FarMoves(s, a, CallApply(s, a), l)
  {
    hide CallEnabled, CallApply, FarMoves, Answers;
    if Answers(a) { FarAnswer(s, a, l); } else { FarDial(s, a, l); }
  }

  lemma FarRunning(s: State, a: Action, l: LinkId)
    requires Safe(s) && RunningEnabled(s, a) && l < |s.links|
    ensures FarMoves(s, a, RunningApply(s, a), l)
  {
    hide Detach, Drain, AddToRoster, DropFromRoster, Safe, DoDrain, DoRead, Push, Admissible, Called, Known, Unlinked;
    match a
    case DrainNode(n, all) => FarDrain(s, n, all, l);
    case Read(m, x) => FarRead(s, m, x, l);
    case TellLeft(m, x) => PushEnds(s.links[m], PeerLeft(x));
    case SayBye(m, x) => PushEnds(s.links[m], Bye);
    case _ =>
  }

  lemma FarRead(s: State, m: LinkId, x: End, l: LinkId)
    requires CanRead(s, m, x) && l < |s.links|
    ensures FarMoves(s, Read(m, x), DoRead(s, m, x), l)
  {
    hide Detach, AddToRoster, DropFromRoster, Admissible, Called, Known, Unlinked;
  }

  lemma FarDrain(s: State, n: PeerId, all: bool, l: LinkId)
    requires Safe(s) && CanDrain(s, n, all) && l < |s.links|
    ensures FarMoves(s, DrainNode(n, all), DoDrain(s, n, all), l)
  {
    hide Drain, LinksOk, ListsOk, EndsOk, JoinsOk, CallsOk, ReqsOk, Admissible, Called, Known, Unlinked;
    assert NodeOk(s.a, n, s.nodes[n]);
  }

  lemma StepFar(s: State, a: Action, l: LinkId)
    requires Safe(s) && Enabled(s, a) && l < |s.links|
    ensures FarMoves(s, a, Apply(s, a), l)
  {
    hide Safe, FarMoves, JoinEnabled, JoinApply, ApprovalEnabled, ApprovalApply, CallEnabled, CallApply, RunningEnabled, RunningApply;
    if JoinEnabled(s, a) { FarJoinAll(s, a, l); }
    else if ApprovalEnabled(s, a) { FarApproval(s, a, l); }
    else if CallEnabled(s, a) { FarCall(s, a, l); }
    else { FarRunning(s, a, l); }
  }

  lemma FarJoinAll(s: State, a: Action, l: LinkId)
    requires Safe(s) && JoinEnabled(s, a) && l < |s.links|
    ensures FarMoves(s, a, JoinApply(s, a), l)
  {
    hide Safe, FarMoves;
    if a.TakeHello? { FarHello(s, a.l, a.expired, l); } else { FarJoin(s, a, l); }
  }

  /** A link begins with its answering thread at the first message. */
  ghost predicate NewLinks(s: State, t: State) {
    |s.links| <= |t.links| && forall l | |s.links| <= l < |t.links| :: t.links[l].far.Fresh?
  }

  lemma NewJoin(s: State, a: Action)
    requires JoinEnabled(s, a)
    ensures NewLinks(s, JoinApply(s, a))
  {
    hide Refuse, Push, Pop, HelloPasses, FirstCalls, Attach;
  }

  lemma NewApproval(s: State, a: Action)
    requires ApprovalEnabled(s, a)
    ensures NewLinks(s, ApprovalApply(s, a))
  {
    hide Push, Attach;
  }

  lemma NewCall(s: State, a: Action)
    requires CallEnabled(s, a)
    ensures NewLinks(s, CallApply(s, a))
  {
    hide Refuse, Push, Retry, Attach;
  }

  lemma NewRunning(s: State, a: Action)
    requires RunningEnabled(s, a)
    ensures NewLinks(s, RunningApply(s, a))
  {
    hide Push, DrainLink, Detach, Drain;
  }

  lemma StepNew(s: State, a: Action)
    requires Enabled(s, a)
    ensures NewLinks(s, Apply(s, a))
  {
    hide NewLinks, JoinEnabled, JoinApply, ApprovalEnabled, ApprovalApply, CallEnabled, CallApply, RunningEnabled, RunningApply;
    if JoinEnabled(s, a) { NewJoin(s, a); }
    else if ApprovalEnabled(s, a) { NewApproval(s, a); }
    else if CallEnabled(s, a) { NewCall(s, a); }
    else { NewRunning(s, a); }
  }

  // ----- what came before -----

  /** The thread is where it is since step `k`. */
  ghost predicate Since(path: seq<State>, acts: seq<Action>, k: nat, i: nat, l: LinkId)
    requires |path| == |acts| + 1
  {
    && k < i <= |acts| && l < |path[i].links| && l < |path[k].links|
    && Came(path[k], acts[k], l, path[k].links[l].far, path[i].links[l].far) && path[k].links[l].far != path[i].links[l].far
  }

  /** Every place but the first was come to by some step. */
  lemma {:induction false} CameSince(path: seq<State>, acts: seq<Action>, i: nat, l: LinkId) returns (k: nat)
    requires IsRun(path, acts) && i <= |acts| && l < |path[i].links| && !path[i].links[l].far.Fresh?
    ensures Since(path, acts, k, i, l)
  {
    hide Enabled, Apply, Safe, Came;
    var s, a := path[i - 1], acts[i - 1];
    RunSafe(path, acts, i - 1);
    StepNew(s, a);
    assert l < |s.links|;
    StepFar(s, a, l);
    if path[i].links[l].far == s.links[l].far {
      k := CameSince(path, acts, i - 1, l);
    } else {
      k := i - 1;
    }
  }

  /** Every request put on the host's desk came with a Hello that was for the host of this room, before
      the code expired, from an id that was not the host's and not on its roster. */
  lemma ParkedWasAdmissible(path: seq<State>, acts: seq<Action>, i: nat, l: LinkId) returns (k: nat)
    requires IsRun(path, acts) && i < |acts| && acts[i] == Park(l) && l < |path[i].links| && path[i].links[l].far.Checked?
    ensures k < i && acts[k] == TakeHello(l, false) && Admissible(path[k], l) && path[k].links[l].up[0].peer == path[i].links[l].far.peer
  {
    hide Enabled, Apply, Admissible;
    k := CameSince(path, acts, i, l);
  }

  lemma ParkChecked(path: seq<State>, acts: seq<Action>, i: nat, l: LinkId)
    requires IsRun(path, acts) && i < |acts| && acts[i] == Park(l)
    ensures l < |path[i].links| && path[i].links[l].far.Checked?
  {
    assert Enabled(path[i], acts[i]);
    hide Apply;
  }

  /** Every call that is answered was for this room, and its caller was first found on the roster and
      then found not to be linked yet. */
  lemma AckedWasKnown(path: seq<State>, acts: seq<Action>, i: nat, l: LinkId) returns (x: nat, y: nat, z: nat)
    requires IsRun(path, acts) && i < |acts| && acts[i] == Ack(l, true) && l < |path[i].links| && path[i].links[l].far.Acking?
    ensures var p := path[i].links[l].far.peer;
            && x < y < z < i && acts[x] == TakeMeshHello(l) && acts[y] == SeeRoster(l) && acts[z] == CheckLinked(l)
            && Called(path[x], l, p) && Known(path[y], l, p) && Unlinked(path[z], l, p)
  {
    hide Enabled, Apply, Called, Known, Unlinked;
    z := CameSince(path, acts, i, l);
    y := CameSince(path, acts, z, l);
    x := CameSince(path, acts, y, l);
  }

  lemma AckAcking(path: seq<State>, acts: seq<Action>, i: nat, l: LinkId)
    requires IsRun(path, acts) && i < |acts| && acts[i] == Ack(l, true)
    ensures l < |path[i].links| && path[i].links[l].far.Acking?
  {
    assert Enabled(path[i], acts[i]);
    hide Apply;
  }

  // ----- refusals -----

  /** The caller is sent Rejected, unless the link is cut, and the link is closed for good. */
  ghost predicate Turned(s: State, t: State, l: LinkId) {
    && l < |s.links| && l < |t.links| && t.links[l].far.Ended? && t.links[l].cut
    && (s.links[l].cut || t.links[l].down == s.links[l].down + [Rejected])
  }

  /** A Hello is put down for the desk exactly when it is admissible and the code has not expired, and
      otherwise turned away. */
  lemma HelloDecided(path: seq<State>, acts: seq<Action>, i: nat, l: LinkId, expired: bool)
    requires IsRun(path, acts) && i < |acts| && acts[i] == TakeHello(l, expired)
    ensures if Admissible(path[i], l) && !expired
            then l < |path[i + 1].links| && path[i + 1].links[l].far == Checked(path[i].links[l].up[0].peer)
            else Turned(path[i], path[i + 1], l)
  {
    RunSafe(path, acts, i);
    HelloStep(path[i], l, expired);
  }

  lemma HelloStep(s: State, l: LinkId, expired: bool)
    requires Safe(s) && Enabled(s, TakeHello(l, expired))
    ensures var t := Apply(s, TakeHello(l, expired));
            if Admissible(s, l) && !expired then l < |t.links| && t.links[l].far == Checked(s.links[l].up[0].peer) else Turned(s, t, l)
  {
    hide LinksOk, ListsOk, EndsOk, JoinsOk, CallsOk, DeskOk, ReqsOk;
    assert Apply(s, TakeHello(l, expired)) == DoTakeHello(s, l, expired);
    assert NodeOk(s.a, s.links[l].callee, s.nodes[s.links[l].callee]);
  }

  /** So is a mesh call for another room; */
  lemma WrongRoomTurned(s: State, l: LinkId)
    requires Enabled(s, TakeMeshHello(l)) && !(exists p :: Called(s, l, p))
    ensures Turned(s, Apply(s, TakeMeshHello(l)), l)
  {
    assert Apply(s, TakeMeshHello(l)) == DoTakeMeshHello(s, l);
    assert !Called(s, l, s.links[l].up[0].peer);
  }

  /** one whose caller does not turn up on the roster; */
  lemma UnknownTurned(s: State, l: LinkId)
    requires Enabled(s, Expire(l))
    ensures l < |s.links| && s.links[l].far.Held? && !Known(s, l, s.links[l].far.peer) && Turned(s, Apply(s, Expire(l)), l)
  {
    assert Apply(s, Expire(l)) == DoExpire(s, l);
  }

  /** one whose caller is linked already; */
  lemma LinkedTurned(s: State, l: LinkId)
    requires Enabled(s, CheckLinked(l)) && l < |s.links| && s.links[l].far.Seen? && !Unlinked(s, l, s.links[l].far.peer)
    ensures Turned(s, Apply(s, CheckLinked(l)), l)
  {
    assert Apply(s, CheckLinked(l)) == DoCheckLinked(s, l);
  }

  /** and a link on which something else comes first. */
  lemma StrangeTurned(s: State, l: LinkId)
    requires Enabled(s, BadFirst(l))
    ensures Turned(s, Apply(s, BadFirst(l)), l)
  {
    assert Apply(s, BadFirst(l)) == DoBadFirst(s, l);
  }

  /** Whoever is turned away has been for good: the answering thread never gets anywhere on that link. */
  lemma {:induction false} TurnedForGood(path: seq<State>, acts: seq<Action>, i: nat, j: nat, l: LinkId)
    requires IsRun(path, acts) && i <= j <= |acts| && l < |path[i].links| && path[i].links[l].far.Ended?
    ensures l < |path[j].links| && path[j].links[l].far.Ended?
  {
    hide Enabled, Apply, Safe, Came;
    if i < j {
      TurnedForGood(path, acts, i, j - 1, l);
      RunSafe(path, acts, j - 1);
      StepFar(path[j - 1], acts[j - 1], l);
    }
  }

  // ----- a declined request -----

  /** Declined, and about to be told, or told. */
  ghost predicate Out(s: State, l: LinkId) {
    l < |s.links| && s.links[l].kind.JoinLink? && (s.links[l].far.Declining? || s.links[l].far.Ended?) && s.links[l].caller !in s.a.accepted
  }

  lemma DeclineOut(s: State, n: PeerId, req: Req)
    requires Safe(s) && Enabled(s, Decline(n, req))
    ensures n in s.nodes && req in s.nodes[n].pending
    ensures var l, t := s.nodes[n].pending[req].link, Apply(s, Decline(n, req)); Out(t, l) && t.links[l].far.Declining?
  {
    ApplyDecline(s, n, req);
    hide Safe, NodeOk, QueueOk, NearOk, Enabled, Apply;
    DeskEntry(s, n, req);
    At(s, s.nodes[n].pending[req].link);
  }

  lemma ApplyDecline(s: State, n: PeerId, req: Req)
    requires Enabled(s, Decline(n, req))
    ensures CanDecide(s, n, req) && Apply(s, Decline(n, req)) == DoDecline(s, n, req)
  {
    hide DoDecline;
  }

  lemma StepOut(s: State, a: Action, l: LinkId)
    requires Safe(s) && Enabled(s, a) && Out(s, l)
    ensures Out(Apply(s, a), l)
  {
    hide Safe, Enabled, Apply, Came, LinkKept, Recorded;
    StepFar(s, a, l);
    StepMsg(s, a, l, Caller, Bye);
    SameKind(s, a, Apply(s, a), l);
    StepHistory(s, a);
    NotAccepted(s, a, Apply(s, a), l);
    if s.links[l].far.Declining? { DecliningEnds(s, a, l); }
  }

  lemma SameKind(s: State, a: Action, t: State, l: LinkId)
    requires l < |s.links| && LinkKept(s, a, t, l)
    ensures l < |t.links| && SameEnds(s.links[l], t.links[l])
  {}

  /** Only a parked request of the id could be accepted, and there is one join link to an id. */
  lemma NotAccepted(s: State, a: Action, t: State, l: LinkId)
    requires Safe(s) && Enabled(s, a) && Out(s, l) && Recorded(s, a, t)
    ensures s.links[l].caller !in t.a.accepted
  {
    hide Safe, Enabled, Apply, NodeOk, QueueOk, NearOk;
    if a.Take? && CanDecide(s, a.n, a.q) {
      DeskEntry(s, a.n, a.q);
      var m := s.nodes[a.n].pending[a.q].link;
      At(s, m);
      ParkedAsking(s.a, s.links[m]);
      OneLinkEach(s, l, m);
    }
  }

  lemma OneLinkEach(s: State, l: LinkId, m: LinkId)
    requires Safe(s) && l < |s.links| && m < |s.links| && s.links[l].kind.JoinLink? && s.links[m].kind.JoinLink? && l != m
    ensures s.links[l].caller != s.links[m].caller
  {
    hide LinkOk, NodesOk, ListsOk, JoinsOk, DeskOk, ReqsOk, LinksOk;
  }

  lemma DecliningEnds(s: State, a: Action, l: LinkId)
    requires Safe(s) && Enabled(s, a) && l < |s.links| && FarMoves(s, a, Apply(s, a), l) && s.links[l].far.Declining?
    ensures Apply(s, a).links[l].far == s.links[l].far || (a == SendDecline(l) && Turned(s, Apply(s, a), l))
  {
    hide Safe, Came;
    if Apply(s, a).links[l].far != s.links[l].far { assert Apply(s, a) == DoSendDecline(s, l); }
  }

  /** A declined request is told so, unless its link breaks first, and its sender is never accepted on
      that or any other request. */
  lemma {:induction false} DeclinedStaysOut(path: seq<State>, acts: seq<Action>, i: nat, j: nat, n: PeerId, req: Req)
    requires IsRun(path, acts) && i < j <= |acts| && acts[i] == Decline(n, req)
    ensures n in path[i].nodes && req in path[i].nodes[n].pending
    ensures var l := path[i].nodes[n].pending[req].link;
            && Out(path[j], l)
            && (path[j].links[l].far.Declining? ||
                exists k :: i < k < j && acts[k] == SendDecline(l) && Turned(path[k], path[k + 1], l))
  {
    hide Enabled, Apply, Safe, Turned, FarMoves;
    RunSafe(path, acts, i);
    DeclineOut(path[i], n, req);
    var l := path[i].nodes[n].pending[req].link;
    if j > i + 1 {
      DeclinedStaysOut(path, acts, i, j - 1, n, req);
      RunSafe(path, acts, j - 1);
      StepOut(path[j - 1], acts[j - 1], l);
      StepFar(path[j - 1], acts[j - 1], l);
      if path[j - 1].links[l].far.Declining? {
        DecliningEnds(path[j - 1], acts[j - 1], l);
      } else {
        var k :| i < k < j - 1 && acts[k] == SendDecline(l) && Turned(path[k], path[k + 1], l);
        assert i < k < j;
      }
    }
  }

  // ----- what an approval and an answer say -----

  /** The newcomer is sent the room, the host and the list that was read for it; */
  lemma WelcomeSaid(s: State, l: LinkId)
    requires Safe(s) && Enabled(s, Greet(l, true))
    ensures l < |s.links| && s.a.host in s.nodes && s.links[l].caller in s.a.lists
    ensures Said(s, Apply(s, Greet(l, true)), l, Callee, Welcome(s.nodes[s.a.host].room, s.a.host, s.a.lists[s.links[l].caller]))
  {
    assert Apply(s, Greet(l, true)) == DoGreet(s, l, true);
    hide Safe, NodeOk, QueueOk, NearOk;
    At(s, l);
  }

  /** each listed member is sent the newcomer's id; */
  lemma AnnouncementSaid(s: State, l: LinkId, m: LinkId)
    requires Safe(s) && Enabled(s, Announce(l, m))
    ensures l < |s.links| && m < |s.links| && s.links[l].callee == s.a.host
    ensures l != m && s.links[m].callee == s.a.host ==> Said(s, Apply(s, Announce(l, m)), m, Callee, PeerJoined(s.links[l].caller))
  {
    ApplyAnnounce(s, l, m);
    hide Safe, NodeOk, QueueOk, NearOk, Enabled, Apply;
    At(s, l);
  }

  /** Announcement of the newcomer on link `l` to link `m` was made at some step between `k` and `i`. */
  ghost predicate Announced(acts: seq<Action>, k: nat, i: nat, l: LinkId, m: LinkId) {
    exists j :: k < j < i && j < |acts| && acts[j] == Announce(l, m)
  }

  lemma {:induction false} AnnouncedSince(path: seq<State>, acts: seq<Action>, i: nat, l: LinkId) returns (k: nat)
    requires IsRun(path, acts) && i <= |acts| && l < |path[i].links| && path[i].links[l].far.Announcing?
    ensures k < i && acts[k] == Snapshot(l) && OnLink(path[k], l)
    ensures forall m | m in path[k].nodes[path[k].links[l].callee].peers.Values ::
              m in path[i].links[l].far.todo || Announced(acts, k, i, l, m)
  {
    hide Enabled, Apply, Safe;
    assert i > 0;
    var s, a := path[i - 1], acts[i - 1];
    RunSafe(path, acts, i - 1);
    StepNew(s, a);
    assert l < |s.links|;
    StepFar(s, a, l);
    var to := path[i].links[l].far;
    if to != s.links[l].far && a == Snapshot(l) && Listed(s, l, to.list, to.todo) {
      k := i - 1;
    } else {
      k := AnnouncedSince(path, acts, i - 1, l);
      forall m | m in path[k].nodes[path[k].links[l].callee].peers.Values ensures m in to.todo || Announced(acts, k, i, l, m) {
        if m in s.links[l].far.todo && m !in to.todo {
          assert a == Announce(l, m);
        } else if Announced(acts, k, i - 1, l, m) {
          var j :| k < j < i - 1 && j < |acts| && acts[j] == Announce(l, m);
          assert k < j < i;
        }
      }
    }
  }

  /** Nobody is entered before the newcomer has been announced on every link the host held when it read
      the list. */
  lemma EverybodyAnnounced(path: seq<State>, acts: seq<Action>, i: nat, l: LinkId) returns (k: nat)
    requires IsRun(path, acts) && i < |acts| && acts[i] == Enroll(l)
    ensures k < i && acts[k] == Snapshot(l) && OnLink(path[k], l)
    ensures forall m | m in path[k].nodes[path[k].links[l].callee].peers.Values :: Announced(acts, k, i, l, m)
  {
    EnrollReady(path[i], l);
    hide Enabled, Apply;
    k := AnnouncedSince(path, acts, i, l);
  }

  lemma EnrollReady(s: State, l: LinkId)
    requires Enabled(s, Enroll(l))
    ensures l < |s.links| && s.links[l].far.Announcing? && s.links[l].far.todo == {}
  {}

  lemma ApplyAnnounce(s: State, l: LinkId, m: LinkId)
    requires Enabled(s, Announce(l, m))
    ensures CanAnnounce(s, l, m) && Apply(s, Announce(l, m)) == DoAnnounce(s, l, m)
  {
    hide DoAnnounce;
  }

  /** and a caller that is let in is sent the id of the member it called. */
  lemma AckSaid(s: State, l: LinkId)
    requires Enabled(s, Ack(l, true))
    ensures l < |s.links| && Said(s, Apply(s, Ack(l, true)), l, Callee, MeshAck(s.links[l].callee))
  {
    assert Apply(s, Ack(l, true)) == DoAck(s, l, true);
  }
}
