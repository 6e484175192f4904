/** The threads a node has running: the calls to the listed members that are outstanding, and how often
    a failed one is tried again; joins that have not connected; and teardowns that have not drained. */
module MeshThreads {
  import opened MeshNode
  import opened MeshModel
  import opened MeshLedger

  /** Call `c` fails: it cannot connect, or its link is rejected, answered amiss or lost. */
  ghost predicate Fails(s: State, a: Action, c: Call) {
    match a
    case DialLost(d) => CanDialLost(s, d) && d == c
    case CallFailed(l) => CanCallFailed(s, l) && s.links[l].caller == c.from && s.links[l].near == AwaitAck(c.to, c.attempt)
    case _ => false
  }

  /** Call `c` becomes outstanding: a first try to somebody listed, when the link to the host is attached,
      or a second or third one when the try before it fails; and always at a node that is up. */
  ghost predicate Makes(s: State, a: Action, c: Call) {
    && Up(s, c.from)
    && match c.attempt
       case 0 =>
         a.AttachHost? && CanAttachHost(s, a.l) && s.links[a.l].caller == c.from && c.to in s.links[a.l].near.list
       case 1 => Fails(s, a, Call(c.from, c.to, 0))
       case 2 => Fails(s, a, Call(c.from, c.to, 1))
       case _ => false
  }

  /** The thread makes call `c`, cannot, or finds that its node has stopped. */
  predicate Takes(a: Action, c: Call) {
    match a
    case Dial(d) => d == c
    case DialLost(d) => d == c
    case DialStop(d) => d == c
    case _ => false
  }

  ghost predicate DialMoves(s: State, a: Action, t: State, c: Call) {
    c in t.dials <==> Makes(s, a, c) || (c in s.dials && !Takes(a, c))
  }

  lemma DialsJoin(s: State, a: Action, c: Call)
    requires JoinEnabled(s, a)
    ensures DialMoves(s, a, JoinApply(s, a), c)
  {
    hide Refuse, Pop, HelloPasses, AttachAt, CanCallFailed, StartJoin, ParkRequest, RemoveRequest, TakeWelcome, Stop;
  }

  lemma DialsApproval(s: State, a: Action, c: Call)
    requires ApprovalEnabled(s, a)
    ensures DialMoves(s, a, ApprovalApply(s, a), c)
  {
    hide Push, Attach, AddToRoster, CanCallFailed;
  }

  lemma DialsCall(s: State, a: Action, c: Call)
    requires CallEnabled(s, a)
    ensures DialMoves(s, a, CallApply(s, a), c)
  {
    hide Refuse, Push, Pop, Attach, Dropped;
  }

  lemma DialsRunning(s: State, a: Action, c: Call)
    requires RunningEnabled(s, a)
    ensures DialMoves(s, a, RunningApply(s, a), c)
  {
    hide Push, Pop, Detach, DrainLink, AddToRoster, DropFromRoster, CanCallFailed, Stop, Drain;
  }

  lemma StepDials(s: State, a: Action, c: Call)
    requires Enabled(s, a)
    ensures DialMoves(s, a, Apply(s, a), c)
  {
    hide DialMoves, JoinEnabled, JoinApply, ApprovalEnabled, ApprovalApply, CallEnabled, CallApply, RunningEnabled, RunningApply;
    if JoinEnabled(s, a) { DialsJoin(s, a, c); }
    else if ApprovalEnabled(s, a) { DialsApproval(s, a, c); }
    else if CallEnabled(s, a) { DialsCall(s, a, c); }
    else { DialsRunning(s, a, c); }
  }

  ghost predicate MadeSince(path: seq<State>, acts: seq<Action>, k: nat, i: nat, c: Call)
    requires |path| == |acts| + 1 && k < i <= |acts|
  {
    Makes(path[k], acts[k], c) && forall m | k < m < i :: !Takes(acts[m], c)
  }

  /** A call is outstanding if and only if some step gave rise to it and no thread has taken it up since.
      So each listed member is called, a failed call is tried again twice and no more, and only by a node
      that is up. */
  lemma {:induction false} DialsIff(path: seq<State>, acts: seq<Action>, i: nat, c: Call)
    requires IsRun(path, acts) && i <= |acts|
    ensures c in path[i].dials <==> exists k :: 0 <= k < i && MadeSince(path, acts, k, i, c)
  {
    hide Enabled, Apply, Makes, Takes;
    if i > 0 {
      DialsIff(path, acts, i - 1, c);
      StepDials(path[i - 1], acts[i - 1], c);
      if Makes(path[i - 1], acts[i - 1], c) {
        assert MadeSince(path, acts, i - 1, i, c);
      } else {
        if c in path[i].dials {
          var k :| 0 <= k < i - 1 && MadeSince(path, acts, k, i - 1, c);
          assert MadeSince(path, acts, k, i, c);
        }
        if k :| 0 <= k < i && MadeSince(path, acts, k, i, c) {
          assert k < i - 1 && MadeSince(path, acts, k, i - 1, c);
        }
      }
    }
  }

  // ----- teardowns and joins -----

  /** `leave`, or a join that cannot connect or is turned down, leaves node `n` to be drained; `all` for
      `leave`. */
  ghost predicate Begins(s: State, a: Action, n: PeerId, all: bool) {
    match a
    case Leave(m) => m == n && all
    case JoinFail(m) => m == n && !all
    case JoinRefused(l) => l < |s.links| && s.links[l].caller == n && !all
    case _ => false
  }

  ghost predicate DrainMoves(s: State, a: Action, t: State, n: PeerId, all: bool) {
    && ((n, all) in t.drains <==> Begins(s, a, n, all) || ((n, all) in s.drains && a != DrainNode(n, all)))
    && (n in t.joining <==> (a.JoinStart? && a.n == n) || (n in s.joining && !(a.JoinDial? && a.n == n) && !(a.JoinFail? && a.n == n)))
  }

  lemma DrainsJoin(s: State, a: Action, n: PeerId, all: bool)
    requires JoinEnabled(s, a)
    ensures DrainMoves(s, a, JoinApply(s, a), n, all)
  {
    hide Refuse, Pop, HelloPasses, Attach, StartJoin, ParkRequest, RemoveRequest, TakeWelcome, Stop, FirstCalls;
  }

  lemma DrainsApproval(s: State, a: Action, n: PeerId, all: bool)
    requires ApprovalEnabled(s, a)
    ensures DrainMoves(s, a, ApprovalApply(s, a), n, all)
  {
    hide Push, Attach, AddToRoster;
  }

  lemma DrainsCall(s: State, a: Action, n: PeerId, all: bool)
    requires CallEnabled(s, a)
    ensures DrainMoves(s, a, CallApply(s, a), n, all)
  {
    hide Refuse, Push, Pop, Attach, Dropped, Retry;
  }

  lemma DrainsRunning(s: State, a: Action, n: PeerId, all: bool)
    requires RunningEnabled(s, a)
    ensures DrainMoves(s, a, RunningApply(s, a), n, all)
  {
    hide Push, Pop, Detach, DrainLink, AddToRoster, DropFromRoster, Stop, Drain;
  }

  lemma StepDrains(s: State, a: Action, n: PeerId, all: bool)
    requires Enabled(s, a)
    ensures DrainMoves(s, a, Apply(s, a), n, all)
  {
    hide DrainMoves, JoinEnabled, JoinApply, ApprovalEnabled, ApprovalApply, CallEnabled, CallApply, RunningEnabled, RunningApply;
    if JoinEnabled(s, a) { DrainsJoin(s, a, n, all); }
    else if ApprovalEnabled(s, a) { DrainsApproval(s, a, n, all); }
    else if CallEnabled(s, a) { DrainsCall(s, a, n, all); }
    else { DrainsRunning(s, a, n, all); }
  }

  /** Whoever stopped is drained: after the step that began a teardown it is outstanding, or has been
      carried out. */
  lemma {:induction false} StoppedIsDrained(path: seq<State>, acts: seq<Action>, k: nat, i: nat, n: PeerId, all: bool)
    requires IsRun(path, acts) && k < i <= |acts| && Begins(path[k], acts[k], n, all)
    ensures (n, all) in path[i].drains || exists m :: k < m < i && acts[m] == DrainNode(n, all)
  {
    hide Enabled, Apply, Begins;
    StepDrains(path[i - 1], acts[i - 1], n, all);
    if k < i - 1 {
      StoppedIsDrained(path, acts, k, i - 1, n, all);
      if acts[i - 1] == DrainNode(n, all) { assert k < i - 1 < i; }
    }
  }

  /** A join that was started has connected, or failed, or is still under way. */
  lemma {:induction false} JoinGoesOn(path: seq<State>, acts: seq<Action>, k: nat, i: nat)
    requires IsRun(path, acts) && k < i <= |acts| && acts[k].JoinStart?
    ensures acts[k].n in path[i].joining
            || exists m :: k < m < i && ((acts[m].JoinDial? && acts[m].n == acts[k].n) || (acts[m].JoinFail? && acts[m].n == acts[k].n))
  {
    hide Enabled, Apply, Begins;
    var n := acts[k].n;
    StepDrains(path[i - 1], acts[i - 1], n, true);
    if k < i - 1 {
      JoinGoesOn(path, acts, k, i - 1);
      if (acts[i - 1].JoinDial? && acts[i - 1].n == n) || (acts[i - 1].JoinFail? && acts[i - 1].n == n) { assert k < i - 1 < i; }
    }
  }
}
