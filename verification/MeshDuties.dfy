/** Whoever has something to do can do it: in every run, whatever has failed and whoever has left, a thread
    waits only for a message, for the operator or for a caller to appear on the roster, and what is owed
    can be sent. */
module MeshDuties {
  import opened MeshNode
  import opened MeshModel
  import opened MeshSafety
  import opened MeshTheorems
  import MeshLedger
  import Farewell = MeshFarewell
  import Admission = MeshAdmission
  import Threads = MeshThreads

  // ----- what is outstanding concerns nodes and links that are there -----

  ghost predicate CallPlaced(s: State, c: Call) { c.from in s.nodes && c.to in s.nodes }

  ghost predicate TodoPlaced(s: State, l: LinkId)
    requires l < |s.links|
  {
    s.links[l].far.Announcing? ==> forall m | m in s.links[l].far.todo :: m < |s.links|
  }

  ghost predicate Placed(s: State) {
    && s.a.accepted <= s.nodes.Keys
    && (forall c | c in s.dials :: CallPlaced(s, c))
    && (forall d | d in s.drains :: d.0 in s.nodes)
    && (forall x | x in s.lefts :: x.0 < |s.links|)
    && (forall x | x in s.byes :: x.0 < |s.links|)
    && (forall l | 0 <= l < |s.links| :: TodoPlaced(s, l))
  }

  lemma AcceptedPlaced(s: State, a: Action)
    requires Safe(s) && Enabled(s, a) && s.a.accepted <= s.nodes.Keys
    ensures Apply(s, a).a.accepted <= Apply(s, a).nodes.Keys
  {
    hide Safe, Enabled, Apply;
    StepHistory(s, a);
    Farewell.NodesBefore(s, a);
    if a.Take? && CanDecide(s, a.n, a.q) {
      DeskEntry(s, a.n, a.q);
      var l := s.nodes[a.n].pending[a.q].link;
      EndsThere(s, l);
      At(s, l);
    }
  }

  lemma EndsThere(s: State, l: LinkId)
    requires Safe(s) && l < |s.links|
    ensures OnLink(s, l)
  {
    hide NodesOk, LinksOk, ListsOk, JoinsOk, CallsOk, DeskOk, ReqsOk;
  }

  lemma ListedPlaced(s: State, l: LinkId, q: PeerId)
    requires Safe(s) && CanAttachHost(s, l) && q in s.links[l].near.list && s.a.accepted <= s.nodes.Keys
    ensures q in s.nodes
  {
    hide LinkOk, NodeOk;
    At(s, l);
    ListNamed(s.a, s.links[l], q);
  }

  lemma ListNamed(a: Approvals, k: Link, q: PeerId)
    requires ListsOk(a) && LinkOk(a, k) && k.near.HostAttach? && q in k.near.list
    ensures q in a.accepted
  {}

  lemma FailPlaced(s: State, a: Action, c: Call)
    requires Safe(s) && Threads.Fails(s, a, c) && (c in s.dials ==> CallPlaced(s, c))
    ensures CallPlaced(s, c)
  {
    hide LinksOk, NodesOk, ListsOk, EndsOk, JoinsOk, CallsOk, DeskOk, ReqsOk;
    if a.CallFailed? {
      At(s, a.l);
      hide QueueOk, NodeOk, FarOk;
    }
  }

  lemma MadePlaced(s: State, a: Action, c: Call)
    requires Safe(s) && s.a.accepted <= s.nodes.Keys && (forall d | d in s.dials :: CallPlaced(s, d)) && Threads.Makes(s, a, c)
    ensures CallPlaced(s, c)
  {
    hide Safe, Threads.Fails;
    match c.attempt
    case 0 => ListedPlaced(s, a.l, c.to);
    case 1 => FailPlaced(s, a, Call(c.from, c.to, 0));
    case 2 => FailPlaced(s, a, Call(c.from, c.to, 1));
  }

  lemma CallsPlaced(s: State, a: Action)
    requires Safe(s) && Enabled(s, a) && s.a.accepted <= s.nodes.Keys && forall d | d in s.dials :: CallPlaced(s, d)
    ensures forall c | c in Apply(s, a).dials :: CallPlaced(Apply(s, a), c)
  {
    hide Enabled, Apply, Safe, Threads.Makes, Threads.Takes;
    Farewell.NodesBefore(s, a);
    forall c | c in Apply(s, a).dials ensures CallPlaced(Apply(s, a), c) {
      Threads.StepDials(s, a, c);
      if Threads.Makes(s, a, c) { MadePlaced(s, a, c); }
    }
  }

  lemma DrainsPlaced(s: State, a: Action)
    requires Enabled(s, a) && forall d | d in s.drains :: d.0 in s.nodes
    ensures forall d | d in Apply(s, a).drains :: d.0 in Apply(s, a).nodes
  {
    hide Enabled, Apply;
    Farewell.NodesBefore(s, a);
    forall d | d in Apply(s, a).drains ensures d.0 in Apply(s, a).nodes {
      Threads.StepDrains(s, a, d.0, d.1);
      if d !in s.drains { StopperThere(s, a, d.0, d.1); }
    }
  }

  lemma StopperThere(s: State, a: Action, n: PeerId, all: bool)
    requires Enabled(s, a) && Threads.Begins(s, a, n, all)
    ensures n in s.nodes
  {}

  /** What is newly owed is owed on links that are there. */
  ghost predicate OwedThere(s: State, t: State) {
    && (forall x | x in t.lefts :: x in s.lefts || exists n, p :: n in s.nodes && p in s.nodes[n].peers && s.nodes[n].peers[p] == x.0)
    && (forall x | x in t.byes :: x in s.byes || x.0 < |s.links|)
  }

  lemma OwedJoin(s: State, a: Action)
    requires JoinEnabled(s, a)
    ensures OwedThere(s, JoinApply(s, a))
  {
    hide Refuse, Push, Pop, HelloPasses, Attach, FirstCalls;
  }

  lemma OwedApproval(s: State, a: Action)
    requires ApprovalEnabled(s, a)
    ensures OwedThere(s, ApprovalApply(s, a))
  {
    hide Push, Attach;
  }

  lemma OwedCall(s: State, a: Action)
    requires CallEnabled(s, a)
    ensures OwedThere(s, CallApply(s, a))
  {
    hide Refuse, Push, Pop, Attach, Retry;
  }

  lemma OwedRunning(s: State, a: Action)
    requires RunningEnabled(s, a) && !a.CloseGone?
    ensures OwedThere(s, RunningApply(s, a))
  {
    hide Detach, Drain, DrainLink, Push, Pop, AddToRoster, DropFromRoster;
  }

  lemma OwedClosing(s: State, l: LinkId, e: End)
    requires CanCloseGone(s, l, e)
    ensures OwedThere(s, DoCloseGone(s, l, e))
  {
    var ns := s.nodes[NodeAt(s.links[l], e)];
    forall x | x in DoCloseGone(s, l, e).lefts && x !in s.lefts
      ensures exists n, p :: n in s.nodes && p in s.nodes[n].peers && s.nodes[n].peers[p] == x.0
    {
      var p :| p in ns.peers && ns.peers[p] == x.0;
      assert NodeAt(s.links[l], e) in s.nodes;
    }
  }

  lemma StepOwed(s: State, a: Action)
    requires Enabled(s, a)
    ensures OwedThere(s, Apply(s, a))
  {
    hide OwedThere, JoinEnabled, JoinApply, ApprovalEnabled, ApprovalApply, CallEnabled, CallApply, CanCloseGone, DoCloseGone;
    if JoinEnabled(s, a) { OwedJoin(s, a); }
    else if ApprovalEnabled(s, a) { OwedApproval(s, a); }
    else if CallEnabled(s, a) { OwedCall(s, a); }
    else if a.CloseGone? { OwedClosing(s, a.l, a.e); }
    else { OwedRunning(s, a); }
  }

  lemma OwedPlaced(s: State, a: Action)
    requires Safe(s) && Farewell.MapsLead(s) && Enabled(s, a)
    requires (forall x | x in s.lefts :: x.0 < |s.links|) && forall x | x in s.byes :: x.0 < |s.links|
    ensures var t := Apply(s, a); (forall x | x in t.lefts :: x.0 < |t.links|) && forall x | x in t.byes :: x.0 < |t.links|
  {
    hide Enabled, Apply, Safe;
    StepOwed(s, a);
    Admission.StepNew(s, a);
    var t := Apply(s, a);
    forall x | x in t.lefts ensures x.0 < |t.links| {
      if x !in s.lefts {
        var n, p :| n in s.nodes && p in s.nodes[n].peers && s.nodes[n].peers[p] == x.0;
        assert Farewell.LeadsTo(s, n, p, x.0);
      }
    }
  }

  lemma StepTodo(s: State, a: Action, l: LinkId)
    requires Safe(s) && Farewell.MapsLead(s) && Enabled(s, a) && l < |Apply(s, a).links|
    requires l < |s.links| ==> TodoPlaced(s, l)
    ensures TodoPlaced(Apply(s, a), l)
  {
    hide Enabled, Apply, Safe;
    Admission.StepNew(s, a);
    if l < |s.links| {
      Admission.StepFar(s, a, l);
      if Apply(s, a).links[l].far.Announcing? && a == Snapshot(l) && Admission.Listed(s, l, Apply(s, a).links[l].far.list, Apply(s, a).links[l].far.todo) {
        MapsThere(s, s.links[l].callee);
      }
    }
  }

  lemma MapsThere(s: State, n: PeerId)
    requires Farewell.MapsLead(s) && n in s.nodes
    ensures forall m | m in s.nodes[n].peers.Values :: m < |s.links|
  {
    forall m | m in s.nodes[n].peers.Values ensures m < |s.links| {
      var p :| p in s.nodes[n].peers && s.nodes[n].peers[p] == m;
      assert Farewell.LeadsTo(s, n, p, m);
    }
  }

  lemma StepPlaced(s: State, a: Action)
    requires Safe(s) && Farewell.MapsLead(s) && Placed(s) && Enabled(s, a)
    ensures Placed(Apply(s, a))
  {
    hide Enabled, Apply, Safe, TodoPlaced, CallPlaced;
    AcceptedPlaced(s, a);
    CallsPlaced(s, a);
    DrainsPlaced(s, a);
    OwedPlaced(s, a);
    forall l: nat | l < |Apply(s, a).links| ensures TodoPlaced(Apply(s, a), l) { StepTodo(s, a, l); }
  }

  lemma {:induction false} RunPlaced(path: seq<State>, acts: seq<Action>, i: nat)
    requires IsRun(path, acts) && i < |path|
    ensures Safe(path[i]) && Placed(path[i])
  {
    hide Enabled, Apply, Safe, Placed;
    RunSafe(path, acts, i);
    if i == 0 {
      InitPlaced(path[0]);
    } else {
      RunPlaced(path, acts, i - 1);
      Farewell.RunLeads(path, acts, i - 1);
      StepPlaced(path[i - 1], acts[i - 1]);
    }
  }

  lemma InitPlaced(s: State)
    requires Init(s)
    ensures Placed(s)
  {}

  // ----- nobody waits who need not -----

  /** The step is one of the thread at end `e` of link `l`. */
  predicate By(a: Action, l: LinkId, e: End) {
    match a
    case TakeWelcomeMsg(m) => m == l && e.Caller?
    case JoinRefused(m) => m == l && e.Caller?
    case AttachHost(m) => m == l && e.Caller?
    case TakeAck(m) => m == l && e.Caller?
    case CallFailed(m) => m == l && e.Caller?
    case TakeHello(m, _) => m == l && e.Callee?
    case Park(m) => m == l && e.Callee?
    case SendDecline(m) => m == l && e.Callee?
    case Snapshot(m) => m == l && e.Callee?
    case Announce(m, _) => m == l && e.Callee?
    case Enroll(m) => m == l && e.Callee?
    case Greet(m, _) => m == l && e.Callee?
    case Admit(m) => m == l && e.Callee?
    case TakeMeshHello(m) => m == l && e.Callee?
    case SeeRoster(m) => m == l && e.Callee?
    case Expire(m) => m == l && e.Callee?
    case CheckLinked(m) => m == l && e.Callee?
    case Ack(m, _) => m == l && e.Callee?
    case AttachCaller(m) => m == l && e.Callee?
    case BadFirst(m) => m == l && e.Callee?
    case Read(m, x) => m == l && e == x
    case Eof(m, x) => m == l && e == x
    case CloseGone(m, x) => m == l && e == x
    case _ => false
  }

  /** The thread is over; or its request is before the operator; or it waits for a message, there is none,
      and the link is up. */
  predicate Waits(k: Link, e: End) {
    match PhaseAt(k, e)
    case Ended => true
    case Parked(_, _) => true
    case AwaitWelcome => Inbox(k, e) == [] && !k.cut
    case AwaitAck(_, _) => Inbox(k, e) == [] && !k.cut
    case Fresh => Inbox(k, e) == [] && !k.cut
    case Reading(_) => Inbox(k, e) == [] && !k.cut
    case _ => false
  }

  lemma EndReads(s: State, l: LinkId, e: End) returns (a: Action)
    requires OnLink(s, l) && !Waits(s.links[l], e) && (PhaseAt(s.links[l], e).Reading? || PhaseAt(s.links[l], e).Leaving?)
    ensures RunningEnabled(s, a) && By(a, l, e)
  {
    var k := s.links[l];
    a := if PhaseAt(k, e).Leaving? then CloseGone(l, e) else if Inbox(k, e) != [] then Read(l, e) else Eof(l, e);
  }

  lemma CallerPhases(s: State, l: LinkId)
    requires Safe(s) && OnLink(s, l)
    ensures var p := s.links[l].near;
            p.AwaitWelcome? || p.HostAttach? || p.AwaitAck? || p.Reading? || p.Leaving? || p.Ended?
  {
    At(s, l);
    hide Safe, NodeOk, QueueOk, FarOk, ListsOk;
  }

  lemma DialGoesOn(s: State, l: LinkId) returns (a: Action)
    requires OnLink(s, l) && s.links[l].near.AwaitAck? && !Waits(s.links[l], Caller)
    ensures CallEnabled(s, a) && By(a, l, Caller)
  {
    var k := s.links[l];
    a := if k.down != [] && k.down[0].MeshAck? then TakeAck(l) else CallFailed(l);
  }

  lemma JoinGoesOn(s: State, l: LinkId) returns (a: Action)
    requires OnLink(s, l) && (s.links[l].near.AwaitWelcome? || s.links[l].near.HostAttach?) && !Waits(s.links[l], Caller)
    ensures JoinEnabled(s, a) && By(a, l, Caller)
  {
    var k := s.links[l];
    a := if k.near.HostAttach? then AttachHost(l) else if k.down != [] && k.down[0].Welcome? then TakeWelcomeMsg(l) else JoinRefused(l);
  }

  lemma CallerGoesOn(s: State, l: LinkId) returns (a: Action)
    requires Safe(s) && OnLink(s, l) && !Waits(s.links[l], Caller)
    ensures Enabled(s, a) && By(a, l, Caller)
  {
    CallerPhases(s, l);
    hide Safe, By, JoinEnabled, ApprovalEnabled, CallEnabled, RunningEnabled;
    var p := s.links[l].near;
    if p.Reading? || p.Leaving? { a := EndReads(s, l, Caller); }
    else if p.AwaitAck? { a := DialGoesOn(s, l); }
    else { a := JoinGoesOn(s, l); }
  }

  lemma CalleePhases(s: State, l: LinkId)
    requires Safe(s) && OnLink(s, l)
    ensures var p := s.links[l].far; !p.AwaitWelcome? && !p.HostAttach? && !p.AwaitAck?
  {
    At(s, l);
    hide Safe, NodeOk, QueueOk, NearOk, ListsOk;
  }

  /** Answering the first message, or the operator. */
  lemma DeskGoesOn(s: State, l: LinkId) returns (a: Action)
    requires OnLink(s, l) && (s.links[l].far.Checked? || s.links[l].far.Declining?)
    ensures JoinEnabled(s, a) && By(a, l, Callee)
  {
    a := if s.links[l].far.Checked? then Park(l) else SendDecline(l);
  }

  lemma FirstGoesOn(s: State, l: LinkId) returns (a: Action)
    requires OnLink(s, l) && s.links[l].far.Fresh? && !Waits(s.links[l], Callee)
    ensures (JoinEnabled(s, a) || CallEnabled(s, a)) && By(a, l, Callee)
  {
    var up := s.links[l].up;
    if up != [] && up[0].Hello? {
      a := TakeHello(l, false);
      assert JoinEnabled(s, a);
    } else {
      a := if up != [] && up[0].MeshHello? then TakeMeshHello(l) else BadFirst(l);
      hide JoinEnabled;
    }
  }

  lemma ApprovalGoesOn(s: State, l: LinkId) returns (a: Action)
    requires OnLink(s, l) && TodoPlaced(s, l)
    requires var p := s.links[l].far; p.Taken? || p.Announcing? || p.Greeting? || p.Admitting?
    ensures ApprovalEnabled(s, a) && By(a, l, Callee)
  {
    match s.links[l].far
    case Taken(_, _) => a := Snapshot(l);
    case Announcing(_, _, _, todo) => a := FirstToTell(l, todo);
    case Greeting(_, _, _) => a := Greet(l, true);
    case Admitting(_) => a := Admit(l);
  }

  lemma CallGoesOn(s: State, l: LinkId) returns (a: Action)
    requires OnLink(s, l) && var p := s.links[l].far; p.Held? || p.Seen? || p.Acking? || p.CallerAttach?
    ensures CallEnabled(s, a) && By(a, l, Callee)
  {
    match s.links[l].far
    case Held(p) => a := if p in s.nodes[s.links[l].callee].roster then SeeRoster(l) else Expire(l);
    case Seen(_) => a := CheckLinked(l);
    case Acking(_) => a := Ack(l, true);
    case CallerAttach(_) => a := AttachCaller(l);
  }

  lemma CalleeGoesOn(s: State, l: LinkId) returns (a: Action)
    requires Safe(s) && OnLink(s, l) && TodoPlaced(s, l) && !Waits(s.links[l], Callee)
    ensures Enabled(s, a) && By(a, l, Callee)
  {
    CalleePhases(s, l);
    hide Safe, By, JoinEnabled, ApprovalEnabled, CallEnabled, RunningEnabled, TodoPlaced;
    var p := s.links[l].far;
    if p.Fresh? { a := FirstGoesOn(s, l); }
    else if p.Checked? || p.Declining? { a := DeskGoesOn(s, l); }
    else if p.Reading? || p.Leaving? { a := EndReads(s, l, Callee); }
    else if p.Held? || p.Seen? || p.Acking? || p.CallerAttach? { a := CallGoesOn(s, l); }
    else { a := ApprovalGoesOn(s, l); }
  }

  lemma FirstToTell(l: LinkId, todo: set<LinkId>) returns (a: Action)
    ensures if todo == {} then a == Enroll(l) else a.Announce? && a.l == l && a.m in todo
  {
    if todo == {} { a := Enroll(l); } else { var m :| m in todo; a := Announce(l, m); }
  }

  /** In every reachable state every thread that does not wait can take a step. */
  lemma ThreadGoesOn(path: seq<State>, acts: seq<Action>, i: nat, l: LinkId, e: End) returns (a: Action)
    requires IsRun(path, acts) && i < |path| && l < |path[i].links| && !Waits(path[i].links[l], e)
    ensures Enabled(path[i], a) && By(a, l, e)
  {
    hide Enabled, Apply, Safe, Waits, By, Init;
    RunPlaced(path, acts, i);
    EndsThere(path[i], l);
    if e.Caller? { a := CallerGoesOn(path[i], l); } else { a := CalleeGoesOn(path[i], l); }
  }

  /** What is owed can be sent, a node that stopped can be drained, a call can be made or fails, a join can
      fail; and the operator can always answer a request and leave. */
  lemma DutiesGoOn(path: seq<State>, acts: seq<Action>, i: nat)
    requires IsRun(path, acts) && i < |path|
    ensures var s := path[i];
            && (forall x | x in s.lefts :: Enabled(s, TellLeft(x.0, x.1)))
            && (forall x | x in s.byes :: Enabled(s, SayBye(x.0, x.1)))
            && (forall d | d in s.drains :: Enabled(s, DrainNode(d.0, d.1)))
            && (forall c | c in s.dials :: Enabled(s, DialLost(c)) && (c.to in s.nodes && s.nodes[c.to].running ==> Enabled(s, Dial(c))))
            && (forall n | n in s.joining :: Enabled(s, JoinFail(n)))
            && (forall n | n in s.nodes && s.nodes[n].running :: Enabled(s, Leave(n)))
            && (forall n, q | n in s.nodes && q in s.nodes[n].pending :: Enabled(s, Take(n, q)) && Enabled(s, Decline(n, q)))
  {
    RunPlaced(path, acts, i);
    hide IsRun, Apply, Enabled, Placed, Safe;
    OwedGoesOn(path[i]);
    CallsGoOn(path[i]);
    OperatorGoesOn(path[i]);
  }

  lemma OwedGoesOn(s: State)
    requires Placed(s)
    ensures forall x | x in s.lefts :: Enabled(s, TellLeft(x.0, x.1))
    ensures forall x | x in s.byes :: Enabled(s, SayBye(x.0, x.1))
    ensures forall d | d in s.drains :: Enabled(s, DrainNode(d.0, d.1))
    ensures forall n | n in s.nodes && s.nodes[n].running :: Enabled(s, Leave(n))
  {
    hide TodoPlaced, CallPlaced, JoinEnabled, ApprovalEnabled, CallEnabled;
    forall x | x in s.lefts ensures RunningEnabled(s, TellLeft(x.0, x.1)) {}
    forall x | x in s.byes ensures RunningEnabled(s, SayBye(x.0, x.1)) {}
    forall d | d in s.drains ensures RunningEnabled(s, DrainNode(d.0, d.1)) {}
    forall n | n in s.nodes && s.nodes[n].running ensures RunningEnabled(s, Leave(n)) {}
  }

  lemma CallsGoOn(s: State)
    requires Placed(s)
    ensures forall c | c in s.dials ::
              Enabled(s, DialLost(c)) && (c.to in s.nodes && s.nodes[c.to].running ==> Enabled(s, Dial(c)))
  {
    hide TodoPlaced, JoinEnabled, ApprovalEnabled, RunningEnabled;
    forall c | c in s.dials
      ensures CallEnabled(s, DialLost(c)) && (c.to in s.nodes && s.nodes[c.to].running ==> CallEnabled(s, Dial(c)))
    {
      assert CallPlaced(s, c);
    }
  }

  lemma OperatorGoesOn(s: State)
    requires Safe(s)
    ensures forall n, q | n in s.nodes && q in s.nodes[n].pending :: Enabled(s, Take(n, q)) && Enabled(s, Decline(n, q))
    ensures forall n | n in s.joining :: Enabled(s, JoinFail(n))
  {
    hide Safe, Enabled;
    forall n, q | n in s.nodes && q in s.nodes[n].pending ensures Enabled(s, Take(n, q)) && Enabled(s, Decline(n, q)) {
      AnswerGoesOn(s, n, q);
    }
    forall n | n in s.joining ensures Enabled(s, JoinFail(n)) {
      JoinerThere(s, n);
      FailGoesOn(s, n);
    }
  }

  lemma AnswerGoesOn(s: State, n: PeerId, q: Req)
    requires Safe(s) && n in s.nodes && q in s.nodes[n].pending
    ensures Enabled(s, Take(n, q)) && Enabled(s, Decline(n, q))
  {
    Farewell.ParkedLink(s, n, q);
    hide Safe;
    DecidedOn(s, n, q);
  }

  lemma DecidedOn(s: State, n: PeerId, q: Req)
    requires CanDecide(s, n, q)
    ensures Enabled(s, Take(n, q)) && Enabled(s, Decline(n, q))
  {
    hide CanDecide, ApprovalEnabled, CallEnabled, RunningEnabled;
  }

  lemma FailGoesOn(s: State, n: PeerId)
    requires n in s.joining && n in s.nodes
    ensures Enabled(s, JoinFail(n))
  {
    hide ApprovalEnabled, CallEnabled, RunningEnabled;
  }

  lemma JoinerThere(s: State, n: PeerId)
    requires Safe(s) && n in s.joining
    ensures n in s.nodes
  {
    hide NodesOk, LinksOk, ListsOk, EndsOk, CallsOk, DeskOk, ReqsOk;
  }
}
