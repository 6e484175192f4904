/** What a node's maps hold, by the messages it has handled: an id is on a roster, or a link in a map,
    exactly when the last thing that happened to it put it there. No departure, failure or
    interleaving is excluded. */
module MeshLedger {
  import opened MeshNode
  import opened MeshModel
  import opened MeshSafety
  import opened MeshTheorems

  // ----- what can happen to a roster -----

  /** The step reads message `m` at node `n`, in a reader loop. */
  ghost predicate Reads(s: State, a: Action, n: PeerId, m: Msg) {
    a.Read? && CanRead(s, a.l, a.e) && NodeAt(s.links[a.l], a.e) == n && Inbox(s.links[a.l], a.e)[0] == m
  }

  /** An announcement of `p` is read, or a Welcome that names it; or the host enters it; or its link is
      attached. */
  ghost predicate Adds(s: State, a: Action, n: PeerId, p: PeerId) {
    match a
    case Read(_, _) => Reads(s, a, n, PeerJoined(p))
    case TakeWelcomeMsg(l) =>
      CanTakeWelcome(s, l) && s.links[l].caller == n && (s.links[l].down[0].host == p || p in s.links[l].down[0].peers)
    case Enroll(l) => CanEnroll(s, l) && s.links[l].callee == n && s.links[l].far.peer == p
    case _ => Attaches(s, a, n, p) && Up(s, n)
  }

  predicate Up(s: State, n: PeerId) { n in s.nodes && s.nodes[n].running }

  /** The link under `p` in the map of `n` goes: its reader, or that of another link to `p`, reads Bye
      or comes to the end. */
  ghost predicate Loses(s: State, a: Action, n: PeerId, p: PeerId) {
    && n in s.nodes && p in s.nodes[n].peers
    && match a
       case Eof(l, e) => CanEof(s, l, e) && NodeAt(s.links[l], e) == n && PhaseAt(s.links[l], e) == Reading(p)
       case Read(l, e) => Reads(s, a, n, Bye) && PhaseAt(s.links[l], e) == Reading(p)
       case _ => false
  }

  /** `leave` or a failed join empties the node, and joining starts it afresh. */
  ghost predicate Clears(s: State, a: Action, n: PeerId) {
    match a
    case DrainNode(m, all) => CanDrain(s, m, all) && m == n
    case JoinStart(m, _) => CanJoinStart(s, m) && m == n
    case _ => false
  }

  /** Word that `p` left is read; or the host itself loses it; or everything goes. */
  ghost predicate Drops(s: State, a: Action, n: PeerId, p: PeerId) {
    Reads(s, a, n, PeerLeft(p)) || (Loses(s, a, n, p) && s.nodes[n].role.Host?) || Clears(s, a, n)
  }

  lemma NothingRead(s: State, a: Action, n: PeerId, p: PeerId)
    requires !a.Read?
    ensures !Reads(s, a, n, PeerLeft(p)) && (!a.Eof? ==> !Loses(s, a, n, p))
  {}

  ghost predicate RosterMoves(s: State, a: Action, t: State, n: PeerId, p: PeerId)
    requires n in s.nodes
  {
    n in t.nodes && (p in t.nodes[n].roster <==> Adds(s, a, n, p) || (p in s.nodes[n].roster && !Drops(s, a, n, p)))
  }

  /** What reading Bye does to the nodes. */
  lemma ByeNodes(s: State, l: LinkId, e: End)
    requires CanRead(s, l, e) && Inbox(s.links[l], e)[0].Bye?
    ensures var n := NodeAt(s.links[l], e);
            DoRead(s, l, e).nodes == s.nodes[n := Detach(s.nodes[n], PhaseAt(s.links[l], e).peer)]
  {}

  lemma RosterJoin(s: State, a: Action, n: PeerId, p: PeerId)
    requires JoinEnabled(s, a) && n in s.nodes
    ensures RosterMoves(s, a, JoinApply(s, a), n, p)
  {
    NothingRead(s, a, n, p);
    if a.AttachHost? { RosterHost(s, a.l, n, p); } else { hide Refuse, Push, Pop, HelloPasses, Loses, Reads, DoAttachHost; }
  }

  lemma RosterHost(s: State, m: LinkId, n: PeerId, p: PeerId)
    requires CanAttachHost(s, m) && n in s.nodes
    ensures RosterMoves(s, AttachHost(m), DoAttachHost(s, m), n, p)
  {
    hide FirstCalls, Loses, Reads;
    NothingRead(s, AttachHost(m), n, p);
  }

  lemma RosterApproval(s: State, a: Action, n: PeerId, p: PeerId)
    requires ApprovalEnabled(s, a) && n in s.nodes
    ensures RosterMoves(s, a, ApprovalApply(s, a), n, p)
  {
    NothingRead(s, a, n, p);
    hide Push, Loses, Reads;
  }

  lemma RosterCall(s: State, a: Action, n: PeerId, p: PeerId)
    requires CallEnabled(s, a) && n in s.nodes
    ensures RosterMoves(s, a, CallApply(s, a), n, p)
  {
    NothingRead(s, a, n, p);
    hide Refuse, Push, Retry, Loses, Reads;
  }

  lemma RosterRead(s: State, l: LinkId, e: End, n: PeerId, p: PeerId)
    requires CanRead(s, l, e) && n in s.nodes
    ensures RosterMoves(s, Read(l, e), DoRead(s, l, e), n, p)
  {
    if Inbox(s.links[l], e)[0].Bye? { RosterBye(s, l, e, n, p); } else { hide GoneAt; }
  }

  lemma RosterBye(s: State, l: LinkId, e: End, n: PeerId, p: PeerId)
    requires CanRead(s, l, e) && n in s.nodes && Inbox(s.links[l], e)[0].Bye?
    ensures RosterMoves(s, Read(l, e), DoRead(s, l, e), n, p)
  {
    ByeNodes(s, l, e);
    hide DoRead, GoneAt, Attaches;
  }

  lemma RosterRest(s: State, a: Action, n: PeerId, p: PeerId)
    requires RunningEnabled(s, a) && n in s.nodes && !a.Read?
    ensures RosterMoves(s, a, RunningApply(s, a), n, p)
  {
    NothingRead(s, a, n, p);
    hide Push, DrainLink, Reads, Pop;
  }

  lemma StepRoster(s: State, a: Action, n: PeerId, p: PeerId)
    requires Enabled(s, a) && n in s.nodes
    ensures RosterMoves(s, a, Apply(s, a), n, p)
  {
    hide RosterMoves, JoinEnabled, JoinApply, ApprovalEnabled, ApprovalApply, CallEnabled, CallApply, CanRead, DoRead;
    if JoinEnabled(s, a) { RosterJoin(s, a, n, p); }
    else if ApprovalEnabled(s, a) { RosterApproval(s, a, n, p); }
    else if CallEnabled(s, a) { RosterCall(s, a, n, p); }
    else if a.Read? { RosterRead(s, a.l, a.e, n, p); }
    else { RosterRest(s, a, n, p); }
  }

  // ----- what can happen to a map entry -----

  /** Link `l` is attached at `n` under `p`. */
  ghost predicate Enters(s: State, a: Action, n: PeerId, p: PeerId, l: LinkId) {
    match a
    case AttachHost(m) => m == l && Attaches(s, a, n, p) && Up(s, n)
    case Admit(m) => m == l && Attaches(s, a, n, p) && Up(s, n)
    case AttachCaller(m) => m == l && Attaches(s, a, n, p) && Up(s, n)
    case TakeAck(m) => m == l && Attaches(s, a, n, p) && Up(s, n)
    case _ => false
  }

  ghost predicate Exits(s: State, a: Action, n: PeerId, p: PeerId) { Loses(s, a, n, p) || Clears(s, a, n) }

  predicate Holds(ns: NodeState, p: PeerId, l: LinkId) { p in ns.peers && ns.peers[p] == l }

  ghost predicate EntryMoves(s: State, a: Action, t: State, n: PeerId, p: PeerId, l: LinkId)
    requires n in s.nodes
  {
    n in t.nodes &&
    (Holds(t.nodes[n], p, l) <==>
       Enters(s, a, n, p, l) ||
       (Holds(s.nodes[n], p, l) && !Exits(s, a, n, p) && !(Attaches(s, a, n, p) && Up(s, n))))
  }

  lemma EntryJoin(s: State, a: Action, n: PeerId, p: PeerId, l: LinkId)
    requires JoinEnabled(s, a) && n in s.nodes
    ensures EntryMoves(s, a, JoinApply(s, a), n, p, l)
  {
    NothingRead(s, a, n, p);
    if a.AttachHost? { EntryHost(s, a.l, n, p, l); } else { hide Refuse, Push, Pop, HelloPasses, Loses, Reads, DoAttachHost; }
  }

  lemma EntryHost(s: State, m: LinkId, n: PeerId, p: PeerId, l: LinkId)
    requires CanAttachHost(s, m) && n in s.nodes
    ensures EntryMoves(s, AttachHost(m), DoAttachHost(s, m), n, p, l)
  {
    hide FirstCalls, Loses, Reads;
    NothingRead(s, AttachHost(m), n, p);
  }

  lemma EntryApproval(s: State, a: Action, n: PeerId, p: PeerId, l: LinkId)
    requires ApprovalEnabled(s, a) && n in s.nodes
    ensures EntryMoves(s, a, ApprovalApply(s, a), n, p, l)
  {
    NothingRead(s, a, n, p);
    hide Push, Loses, Reads;
  }

  lemma EntryCall(s: State, a: Action, n: PeerId, p: PeerId, l: LinkId)
    requires CallEnabled(s, a) && n in s.nodes
    ensures EntryMoves(s, a, CallApply(s, a), n, p, l)
  {
    NothingRead(s, a, n, p);
    hide Refuse, Push, Retry, Loses, Reads;
  }

  lemma EntryRead(s: State, l: LinkId, e: End, n: PeerId, p: PeerId, m: LinkId)
    requires CanRead(s, l, e) && n in s.nodes
    ensures EntryMoves(s, Read(l, e), DoRead(s, l, e), n, p, m)
  {
    if Inbox(s.links[l], e)[0].Bye? { EntryBye(s, l, e, n, p, m); } else { hide GoneAt; }
  }

  lemma EntryBye(s: State, l: LinkId, e: End, n: PeerId, p: PeerId, m: LinkId)
    requires CanRead(s, l, e) && n in s.nodes && Inbox(s.links[l], e)[0].Bye?
    ensures EntryMoves(s, Read(l, e), DoRead(s, l, e), n, p, m)
  {
    ByeNodes(s, l, e);
    hide DoRead, GoneAt, Attaches;
  }

  lemma EntryRest(s: State, a: Action, n: PeerId, p: PeerId, l: LinkId)
    requires RunningEnabled(s, a) && n in s.nodes && !a.Read?
    ensures EntryMoves(s, a, RunningApply(s, a), n, p, l)
  {
    NothingRead(s, a, n, p);
    hide Push, DrainLink, Reads, Pop;
  }

  lemma StepEntry(s: State, a: Action, n: PeerId, p: PeerId, l: LinkId)
    requires Enabled(s, a) && n in s.nodes
    ensures EntryMoves(s, a, Apply(s, a), n, p, l)
  {
    hide EntryMoves, JoinEnabled, JoinApply, ApprovalEnabled, ApprovalApply, CallEnabled, CallApply, CanRead, DoRead;
    if JoinEnabled(s, a) { EntryJoin(s, a, n, p, l); }
    else if ApprovalEnabled(s, a) { EntryApproval(s, a, n, p, l); }
    else if CallEnabled(s, a) { EntryCall(s, a, n, p, l); }
    else if a.Read? { EntryRead(s, a.l, a.e, n, p, l); }
    else { EntryRest(s, a, n, p, l); }
  }

  // ----- whether a node is up -----

  ghost predicate Starts(s: State, a: Action, n: PeerId) { a.JoinStart? && a.n == n }

  /** The operator leaves, the join cannot connect, or it is turned down. */
  ghost predicate Stops(s: State, a: Action, n: PeerId) {
    match a
    case Leave(m) => m == n
    case JoinFail(m) => m == n
    case JoinRefused(l) => l < |s.links| && s.links[l].caller == n
    case _ => false
  }

  ghost predicate UpMoves(s: State, a: Action, t: State, n: PeerId)
    requires n in s.nodes
  {
    n in t.nodes && (t.nodes[n].running <==> Starts(s, a, n) || (s.nodes[n].running && !Stops(s, a, n)))
  }

  lemma StepUp(s: State, a: Action, n: PeerId)
    requires Enabled(s, a) && n in s.nodes
    ensures UpMoves(s, a, Apply(s, a), n)
  {
    hide UpMoves, JoinEnabled, JoinApply, ApprovalEnabled, ApprovalApply, CallEnabled, CallApply, RunningEnabled, RunningApply;
    if JoinEnabled(s, a) { UpJoin(s, a, n); }
    else if ApprovalEnabled(s, a) { UpApproval(s, a, n); }
    else if CallEnabled(s, a) { UpCall(s, a, n); }
    else { UpRunning(s, a, n); }
  }

  lemma UpJoin(s: State, a: Action, n: PeerId)
    requires JoinEnabled(s, a) && n in s.nodes
    ensures UpMoves(s, a, JoinApply(s, a), n)
  {
    hide Refuse, Push, FirstCalls, Pop, HelloPasses;
  }

  lemma UpApproval(s: State, a: Action, n: PeerId)
    requires ApprovalEnabled(s, a) && n in s.nodes
    ensures UpMoves(s, a, ApprovalApply(s, a), n)
  {
    hide Push;
  }

  lemma UpCall(s: State, a: Action, n: PeerId)
    requires CallEnabled(s, a) && n in s.nodes
    ensures UpMoves(s, a, CallApply(s, a), n)
  {
    hide Refuse, Push, Retry;
  }

  lemma UpRunning(s: State, a: Action, n: PeerId)
    requires RunningEnabled(s, a) && n in s.nodes
    ensures UpMoves(s, a, RunningApply(s, a), n)
  {
    hide Push, DrainLink;
  }

  // ----- the ledgers -----

  ghost predicate KnownSince(path: seq<State>, acts: seq<Action>, k: nat, i: nat, n: PeerId, p: PeerId)
    requires |path| == |acts| + 1 && k < i <= |acts|
  {
    Adds(path[k], acts[k], n, p) && forall m | k < m < i :: !Drops(path[m], acts[m], n, p)
  }

  /** An id is on a node's roster if and only if some step put it there and none since has taken it off. */
  lemma {:induction false} RosterIff(path: seq<State>, acts: seq<Action>, i: nat, n: PeerId, p: PeerId)
    requires IsRun(path, acts) && i <= |acts| && n in path[0].nodes
    ensures n in path[i].nodes
    ensures p in path[i].nodes[n].roster <==> exists k :: 0 <= k < i && KnownSince(path, acts, k, i, n, p)
  {
    hide Enabled, Apply, Adds, Drops;
    if i > 0 {
      RosterIff(path, acts, i - 1, n, p);
      StepRoster(path[i - 1], acts[i - 1], n, p);
      if Adds(path[i - 1], acts[i - 1], n, p) {
        assert KnownSince(path, acts, i - 1, i, n, p);
      } else {
        if p in path[i].nodes[n].roster {
          var k :| 0 <= k < i - 1 && KnownSince(path, acts, k, i - 1, n, p);
          assert KnownSince(path, acts, k, i, n, p);
        }
        if k :| 0 <= k < i && KnownSince(path, acts, k, i, n, p) {
          assert k < i - 1 && KnownSince(path, acts, k, i - 1, n, p);
        }
      }
    }
  }

  ghost predicate HeldSince(path: seq<State>, acts: seq<Action>, k: nat, i: nat, n: PeerId, p: PeerId, l: LinkId)
    requires |path| == |acts| + 1 && k < i <= |acts|
  {
    && Enters(path[k], acts[k], n, p, l)
    && forall m | k < m < i :: !Exits(path[m], acts[m], n, p) && !(Attaches(path[m], acts[m], n, p) && Up(path[m], n))
  }

  /** A node holds a link under an id if and only if the last attach under that id was of that link, and
      it has not lost the id or been emptied since. */
  lemma {:induction false} EntryIff(path: seq<State>, acts: seq<Action>, i: nat, n: PeerId, p: PeerId, l: LinkId)
    requires IsRun(path, acts) && i <= |acts| && n in path[0].nodes
    ensures n in path[i].nodes
    ensures Holds(path[i].nodes[n], p, l) <==> exists k :: 0 <= k < i && HeldSince(path, acts, k, i, n, p, l)
  {
    hide Enabled, Apply, Enters, Exits, Attaches;
    if i > 0 {
      EntryIff(path, acts, i - 1, n, p, l);
      StepEntry(path[i - 1], acts[i - 1], n, p, l);
      EntersAttaches(path[i - 1], acts[i - 1], n, p, l);
      if Enters(path[i - 1], acts[i - 1], n, p, l) {
        assert HeldSince(path, acts, i - 1, i, n, p, l);
      } else {
        if Holds(path[i].nodes[n], p, l) {
          var k :| 0 <= k < i - 1 && HeldSince(path, acts, k, i - 1, n, p, l);
          assert HeldSince(path, acts, k, i, n, p, l);
        }
        if k :| 0 <= k < i && HeldSince(path, acts, k, i, n, p, l) {
          assert k < i - 1 && HeldSince(path, acts, k, i - 1, n, p, l);
        }
      }
    }
  }

  lemma EntersAttaches(s: State, a: Action, n: PeerId, p: PeerId, l: LinkId)
    requires n in s.nodes
    ensures Enters(s, a, n, p, l) ==> Attaches(s, a, n, p) && Up(s, n)
  {}
}
