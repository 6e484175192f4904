/** Teardown racing attach at one node (core/src/mesh.rs, `attach_peer`, `peer_gone`, `leave`).
    The environment may hand the node any links at any time, end them in any way, and leave at
    any moment; the threads involved interleave freely between their critical sections. */
module Teardown {
  import opened MeshNode

  datatype Note = Connected | Disconnected

  /** Where the thread that owns a link stands. */
  datatype Stage =
    | Attaching                                  // called `attach_peer`
    | Refused                                    // found the node stopped; about to close
    | Registered                                 // in the map; Connected not reported yet
    | Running                                    // in the reader loop
    | Removed(again: bool)                       // `peer_gone` took an entry; about to close
    | Listing(again: bool)                       // closed; about to read who must be told
    | Telling(again: bool, todo: set<LinkId>)    // a host sending PeerLeft
    | Reporting(again: bool)                     // about to report Disconnected
    | Over

  /** `log` is what the node reported about this link's peer; `told` whom it sent PeerLeft. */
  datatype Track = Track(id: PeerId, closed: bool, stage: Stage, log: seq<Note>, told: seq<LinkId>)

  /** Who took a map entry out. */
  datatype Taker = Reader | Leaver

  datatype State = State(
    n: NodeState,
    tracks: seq<Track>,
    leaving: bool,                               // `leave` between the flag and the drain
    byes: set<LinkId>,                           // drained by `leave`, not closed yet
    takes: map<LinkId, Taker>)                   // history: which entries were taken, by whom

  function Put(s: State, l: LinkId, t: Track): State
    requires l < |s.tracks|
  {
    s.(tracks := s.tracks[l := t])
  }

  function AfterGone(again: bool): Stage { if again then Running else Over }

  datatype Action =
    | Give(id: PeerId)
    | Section(l: LinkId)
    | CloseRefused(l: LinkId)
    | ReportConnected(l: LinkId)
    | PeerGone(l: LinkId, again: bool)           // `again` for Bye, not for a read error
    | CloseRemoved(l: LinkId)
    | ListPeers(l: LinkId)
    | TellPeer(l: LinkId, m: LinkId)
    | ReportGone(l: LinkId)
    | StopNode
    | DrainMap
    | CloseBye(l: LinkId)

  predicate Enabled(s: State, a: Action) {
    match a
    case Give(_) => true
    case Section(l) => l < |s.tracks| && s.tracks[l].stage.Attaching?
    case CloseRefused(l) => l < |s.tracks| && s.tracks[l].stage.Refused?
    case ReportConnected(l) => l < |s.tracks| && s.tracks[l].stage.Registered?
    case PeerGone(l, _) => l < |s.tracks| && s.tracks[l].stage.Running?
    case CloseRemoved(l) => l < |s.tracks| && s.tracks[l].stage.Removed?
    case ListPeers(l) => l < |s.tracks| && s.tracks[l].stage.Listing?
    case TellPeer(l, m) => l < |s.tracks| && s.tracks[l].stage.Telling? && m in s.tracks[l].stage.todo
    case ReportGone(l) =>
      l < |s.tracks| && (s.tracks[l].stage.Reporting? || (s.tracks[l].stage.Telling? && s.tracks[l].stage.todo == {}))
    case StopNode => s.n.running
    case DrainMap => s.leaving
    case CloseBye(l) => l in s.byes && l < |s.tracks|
  }

  function Apply(s: State, a: Action): State
    requires Enabled(s, a)
  {
    match a
    case Give(id) => s.(tracks := s.tracks + [Track(id, false, Attaching, [], [])])
    case Section(l) =>
      var t := s.tracks[l];
      Put(s, l, t.(stage := if s.n.running then Registered else Refused)).(n := Attach(s.n, t.id, l))
    case CloseRefused(l) => Put(s, l, s.tracks[l].(closed := true, stage := Over))
    case ReportConnected(l) => Put(s, l, s.tracks[l].(stage := Running, log := s.tracks[l].log + [Connected]))
    case PeerGone(l, again) =>
      var t := s.tracks[l];
      if t.id in s.n.peers
      then Put(s, l, t.(stage := Removed(again))).(n := Detach(s.n, t.id), takes := s.takes[s.n.peers[t.id] := Reader])
      else Put(s, l, t.(stage := AfterGone(again)))
    case CloseRemoved(l) =>
      var again := s.tracks[l].stage.again;
      Put(s, l, s.tracks[l].(closed := true, stage := if s.n.role.Host? then Listing(again) else Reporting(again)))
    case ListPeers(l) => Put(s, l, s.tracks[l].(stage := Telling(s.tracks[l].stage.again, s.n.peers.Values)))
    case TellPeer(l, m) =>
      var t := s.tracks[l];
      Put(s, l, t.(stage := t.stage.(todo := t.stage.todo - {m}), told := t.told + [m]))
    case ReportGone(l) =>
      Put(s, l, s.tracks[l].(stage := AfterGone(s.tracks[l].stage.again), log := s.tracks[l].log + [Disconnected]))
    case StopNode => s.(n := Stop(s.n), leaving := true)
    case DrainMap =>
      s.(n := Drain(s.n, true), leaving := false, byes := s.byes + s.n.peers.Values,
         takes := s.takes + map m | m in s.n.peers.Values :: Leaver)
    case CloseBye(l) => Put(s, l, s.tracks[l].(closed := true)).(byes := s.byes - {l})
  }

  /** A node that has just opened or joined a room. */
  predicate Init(s: State) {
    s.n.running && s.n.peers == map[] && s.tracks == [] && !s.leaving && s.byes == {} && s.takes == map[]
  }

  ghost predicate IsRun(path: seq<State>, acts: seq<Action>) {
    && |path| == |acts| + 1 && Init(path[0])
    && forall i | 0 <= i < |acts| :: Enabled(path[i], acts[i]) && path[i + 1] == Apply(path[i], acts[i])
  }

  // ----- leaks -----

  predicate InMap(s: State, l: LinkId)
    requires l < |s.tracks|
  {
    s.tracks[l].id in s.n.peers && s.n.peers[s.tracks[l].id] == l
  }

  /** A link handed to `attach_peer` is in the map, closed, or in the hands of a thread that will
      put it there or close it. */
  predicate Accounted(s: State, l: LinkId)
    requires l < |s.tracks|
  {
    || InMap(s, l) || s.tracks[l].closed
    || s.tracks[l].stage.Attaching? || s.tracks[l].stage.Refused? || s.tracks[l].stage.Removed? || l in s.byes
  }

  predicate NoLeak(s: State) { forall l | 0 <= l < |s.tracks| :: Accounted(s, l) }

  /** The step does not overwrite an entry, and takes no entry but its own link's. */
  predicate OwnEntry(s: State, a: Action)
    requires Enabled(s, a)
  {
    match a
    case Section(l) => !s.n.running || s.tracks[l].id !in s.n.peers
    case PeerGone(l, _) => s.tracks[l].id in s.n.peers ==> InMap(s, l)
    case _ => true
  }

  ghost predicate EntryTidy(s: State, id: PeerId, l: LinkId) {
    l < |s.tracks| && s.tracks[l].id == id && !s.tracks[l].closed && l !in s.byes &&
    (s.tracks[l].stage.Registered? || s.tracks[l].stage.Running?)
  }

  ghost predicate EntriesTidy(s: State) { forall id | id in s.n.peers :: EntryTidy(s, id, s.n.peers[id]) }

  /** What holds as long as every step minded its own entry. */
  ghost predicate Tidy(s: State) {
    && NoLeak(s) && EntriesTidy(s)
    && (forall l | l in s.byes :: l < |s.tracks|)
    && (forall l | 0 <= l < |s.tracks| && s.tracks[l].stage.Attaching? :: !s.tracks[l].closed && l !in s.byes)
  }

  lemma OwnStepEntries(s: State, a: Action)
    requires Tidy(s) && Enabled(s, a) && OwnEntry(s, a)
    ensures EntriesTidy(Apply(s, a))
  {
    var t := Apply(s, a);
    forall id | id in t.n.peers ensures EntryTidy(t, id, t.n.peers[id]) {
      assert id in s.n.peers && s.n.peers[id] == t.n.peers[id] ==> EntryTidy(s, id, s.n.peers[id]);
    }
  }

  lemma OwnStepTidy(s: State, a: Action)
    requires Tidy(s) && Enabled(s, a) && OwnEntry(s, a)
    ensures Tidy(Apply(s, a))
  {
    OwnStepEntries(s, a);
    hide EntriesTidy, EntryTidy;
    var t := Apply(s, a);
    forall l | 0 <= l < |t.tracks| ensures Accounted(t, l) {
      if l < |s.tracks| { assert Accounted(s, l); }
    }
  }

  /** Overwriting an entry, or taking one that belongs to another link, loses that link at once. */
  lemma OtherStepLeaks(s: State, a: Action)
    requires Tidy(s) && Enabled(s, a) && !OwnEntry(s, a)
    ensures !NoLeak(Apply(s, a))
  {
    var t := Apply(s, a);
    var lost := s.n.peers[s.tracks[a.l].id];
    assert !Accounted(t, lost);
  }

  lemma {:induction false} RunTidy(path: seq<State>, acts: seq<Action>, i: nat)
    requires IsRun(path, acts) && i < |path| && forall j | 0 <= j < i :: OwnEntry(path[j], acts[j])
    ensures Tidy(path[i])
  {
    if i > 0 {
      RunTidy(path, acts, i - 1);
      OwnStepTidy(path[i - 1], acts[i - 1]);
    }
  }

  /** A run leaks no link in any of its states exactly when each step minds its own entry. */
  lemma NoLeakIff(path: seq<State>, acts: seq<Action>)
    requires IsRun(path, acts)
    ensures (forall i | 0 <= i < |path| :: NoLeak(path[i])) <==> (forall i | 0 <= i < |acts| :: OwnEntry(path[i], acts[i]))
  {
    if forall i | 0 <= i < |acts| :: OwnEntry(path[i], acts[i]) {
      forall i | 0 <= i < |path| ensures NoLeak(path[i]) { RunTidy(path, acts, i); }
    } else {
      var i := FirstOther(path, acts, |acts|);
      RunTidy(path, acts, i);
      OtherStepLeaks(path[i], acts[i]);
      assert !NoLeak(path[i + 1]);
    }
  }

  lemma {:induction false} FirstOther(path: seq<State>, acts: seq<Action>, n: nat) returns (i: nat)
    requires IsRun(path, acts) && n <= |acts| && exists j :: 0 <= j < n && !OwnEntry(path[j], acts[j])
    ensures i < n && !OwnEntry(path[i], acts[i]) && forall j | 0 <= j < i :: OwnEntry(path[j], acts[j])
  {
    if j :| 0 <= j < n - 1 && !OwnEntry(path[j], acts[j]) {
      i := FirstOther(path, acts, n - 1);
    } else {
      i := n - 1;
    }
  }

  // ----- every id attached at most once -----

  /** No id has been handed to `attach_peer` twice. */
  ghost predicate Distinct(s: State) {
    forall l, m | 0 <= l < m < |s.tracks| :: s.tracks[l].id != s.tracks[m].id
  }

  ghost predicate Taken(s: State, l: LinkId, who: Taker) { l in s.takes && s.takes[l] == who }

  /** What one link's history looks like at each stage. */
  ghost predicate TrackOk(s: State, l: LinkId)
    requires l < |s.tracks|
  {
    StageOk(s.tracks[l], InMap(s, l), Taken(s, l, Reader), Taken(s, l, Leaver))
  }

  ghost predicate StageOk(t: Track, inMap: bool, byReader: bool, byLeaver: bool) {
    && (inMap ==> !byReader && !byLeaver)
    && match t.stage
       case Attaching => Unused(t, inMap, byReader, byLeaver)
       case Refused => Unused(t, inMap, byReader, byLeaver)
       case Registered => t.log == [] && t.told == [] && !byReader && (inMap || byLeaver)
       case Running => Sound(t, inMap, byReader, byLeaver)
       case Over => Sound(t, inMap, byReader, byLeaver) || Unused(t, inMap, byReader, byLeaver)
       case Removed(_) => t.log == [Connected] && t.told == [] && byReader && !inMap
       case Listing(_) => t.log == [Connected] && t.told == [] && byReader && !inMap
       case Telling(_, todo) =>
         t.log == [Connected] && byReader && !inMap && NoRepeat(t.told) && forall m | m in t.told :: m !in todo
       case Reporting(_) => t.log == [Connected] && t.told == [] && byReader && !inMap
  }

  ghost predicate Unused(t: Track, inMap: bool, byReader: bool, byLeaver: bool) {
    t.log == [] && t.told == [] && !inMap && !byReader && !byLeaver
  }

  /** Disconnected is reported if and only if the reader took the entry. */
  ghost predicate Sound(t: Track, inMap: bool, byReader: bool, byLeaver: bool) {
    && NoRepeat(t.told)
    && (if byReader then t.log == [Connected, Disconnected] && !inMap
        else t.log == [Connected] && t.told == [] && (inMap || byLeaver))
  }

  ghost predicate NoRepeat(q: seq<LinkId>) { forall i, j | 0 <= i < j < |q| :: q[i] != q[j] }

  ghost predicate HistoryOk(s: State) {
    && (forall l | 0 <= l < |s.tracks| :: TrackOk(s, l))
    && MapsOk(s)
  }

  ghost predicate MapsOk(s: State) {
    && (forall id | id in s.n.peers :: s.n.peers[id] < |s.tracks| && s.tracks[s.n.peers[id]].id == id)
    && (forall l | l in s.takes :: l < |s.tracks| && !InMap(s, l))
    && (!s.n.running && !s.leaving ==> s.n.peers == map[])
  }

  /** With distinct ids an entry under a link's id is that link's. */
  lemma OwnSteps(s: State, a: Action)
    requires HistoryOk(s) && Distinct(s) && Enabled(s, a)
    ensures OwnEntry(s, a)
  {
    hide Sound, NoRepeat;
    if (a.Section? || a.PeerGone?) && s.tracks[a.l].id in s.n.peers {
      var m := s.n.peers[s.tracks[a.l].id];
      assert m == a.l;
      assert TrackOk(s, a.l);
    }
  }

  lemma EntryStep(s: State, a: Action)
    requires MapsOk(s) && Enabled(s, a)
    ensures var t := Apply(s, a);
      && (forall id | id in t.n.peers :: t.n.peers[id] < |t.tracks| && t.tracks[t.n.peers[id]].id == id)
      && (!t.n.running && !t.leaving ==> t.n.peers == map[])
  {
  }

  lemma TakesStep(s: State, a: Action)
    requires HistoryOk(s) && Distinct(s) && Enabled(s, a) && OwnEntry(s, a)
    ensures var t := Apply(s, a); forall l | l in t.takes :: l < |t.tracks| && !InMap(t, l)
  {
    hide Sound, NoRepeat, HistoryOk;
    if a.Section? { SectionFresh(s, a.l); } else { HistoryMaps(s); }
  }

  lemma HistoryMaps(s: State)
    requires HistoryOk(s)
    ensures MapsOk(s)
  {
  }

  lemma SectionFresh(s: State, l: LinkId)
    requires HistoryOk(s) && Distinct(s) && Enabled(s, Section(l)) && OwnEntry(s, Section(l))
    ensures var t := Apply(s, Section(l)); forall m | m in t.takes :: m < |t.tracks| && !InMap(t, m)
  {
    hide Sound, NoRepeat;
    assert TrackOk(s, l);
  }

  lemma MapStep(s: State, a: Action)
    requires HistoryOk(s) && Distinct(s) && Enabled(s, a) && OwnEntry(s, a)
    ensures MapsOk(Apply(s, a))
  {
    hide Apply, TrackOk, Distinct, OwnEntry;
    EntryStep(s, a);
    TakesStep(s, a);
  }

  /** The link whose thread takes the step, if any. */
  function Mover(a: Action): LinkId
    requires !a.Give? && !a.StopNode? && !a.DrainMap?
  {
    a.l
  }

  predicate MovedBy(a: Action, l: LinkId) { !a.Give? && !a.StopNode? && !a.DrainMap? && Mover(a) == l }

  lemma OtherTrackStep(s: State, a: Action, l: LinkId)
    requires HistoryOk(s) && Distinct(s) && Enabled(s, a) && OwnEntry(s, a) && l < |s.tracks| && !MovedBy(a, l)
    ensures TrackOk(Apply(s, a), l)
  {
    hide StageOk, MapsOk;
    assert TrackOk(s, l);
    if a.DrainMap? { DrainTrackStep(s, l); }
  }

  lemma DrainTrackStep(s: State, l: LinkId)
    requires MapsOk(s) && s.leaving && l < |s.tracks| && TrackOk(s, l)
    ensures TrackOk(Apply(s, DrainMap), l)
  {
    hide StageOk;
    assert l in s.n.peers.Values <==> InMap(s, l);
    DrainedTrack(s.tracks[l], InMap(s, l), Taken(s, l, Reader), Taken(s, l, Leaver));
  }

  /** `leave` takes an entry from a link whose reader has not. */
  lemma DrainedTrack(t: Track, inMap: bool, byReader: bool, byLeaver: bool)
    requires StageOk(t, inMap, byReader, byLeaver)
    ensures StageOk(t, false, byReader && !inMap, byLeaver || inMap)
  {
  }

  lemma OwnTrackStep(s: State, a: Action)
    requires HistoryOk(s) && Enabled(s, a) && OwnEntry(s, a) && !a.Give? && !a.StopNode? && !a.DrainMap?
    ensures TrackOk(Apply(s, a), a.l)
  {
    hide HistoryOk, TrackOk, OwnEntry, Apply;
    if a.Section? || a.PeerGone? { OwnMapStep(s, a); } else { OwnQuietStep(s, a); }
  }

  lemma OwnMapStep(s: State, a: Action)
    requires HistoryOk(s) && Enabled(s, a) && OwnEntry(s, a) && (a.Section? || a.PeerGone?)
    ensures TrackOk(Apply(s, a), a.l)
  {
    assert TrackOk(s, a.l);
  }

  /** The steps of a link's thread that leave the maps alone. */
  lemma OwnQuietStep(s: State, a: Action)
    requires HistoryOk(s) && Enabled(s, a)
    requires !a.Give? && !a.StopNode? && !a.DrainMap? && !a.Section? && !a.PeerGone?
    ensures TrackOk(Apply(s, a), a.l)
  {
    assert TrackOk(s, a.l);
  }

  lemma TrackStep(s: State, a: Action, l: LinkId)
    requires HistoryOk(s) && Distinct(s) && Enabled(s, a) && OwnEntry(s, a) && l < |Apply(s, a).tracks|
    ensures TrackOk(Apply(s, a), l)
  {
    hide HistoryOk, Distinct, Sound;
    if MovedBy(a, l) { OwnTrackStep(s, a); }
    else if l < |s.tracks| { OtherTrackStep(s, a, l); }
    else { NewTrack(s, a); }
  }

  lemma NewTrack(s: State, a: Action)
    requires HistoryOk(s) && a.Give?
    ensures TrackOk(Apply(s, a), |s.tracks|)
  {
  }

  lemma StepHistory(s: State, a: Action)
    requires HistoryOk(s) && Distinct(s) && Enabled(s, a)
    ensures HistoryOk(Apply(s, a)) && OwnEntry(s, a)
  {
    hide OwnEntry, TrackOk, Distinct;
    OwnSteps(s, a);
    MapStep(s, a);
    forall l | 0 <= l < |Apply(s, a).tracks| ensures TrackOk(Apply(s, a), l) { TrackStep(s, a, l); }
  }

  lemma {:induction false} IdsStay(path: seq<State>, acts: seq<Action>, i: nat, j: nat)
    requires IsRun(path, acts) && i <= j < |path|
    ensures |path[i].tracks| <= |path[j].tracks|
    ensures forall l | 0 <= l < |path[i].tracks| :: path[j].tracks[l].id == path[i].tracks[l].id
  {
    hide Apply, Enabled, Init;
    if i < j {
      IdsStay(path, acts, i, j - 1);
      IdsStep(path[j - 1], acts[j - 1]);
    }
  }

  lemma IdsStep(s: State, a: Action)
    requires Enabled(s, a)
    ensures |s.tracks| <= |Apply(s, a).tracks|
    ensures forall l | 0 <= l < |s.tracks| :: Apply(s, a).tracks[l].id == s.tracks[l].id
  {
  }

  lemma {:induction false} RunHistory(path: seq<State>, acts: seq<Action>, i: nat)
    requires IsRun(path, acts) && i < |path| && Distinct(path[|acts|])
    ensures HistoryOk(path[i]) && Distinct(path[i])
    ensures i < |acts| ==> OwnEntry(path[i], acts[i])
  {
    hide Apply, Enabled, TrackOk, MapsOk;
    IdsStay(path, acts, i, |acts|);
    if i > 0 {
      RunHistory(path, acts, i - 1);
      StepHistory(path[i - 1], acts[i - 1]);
    } else {
      InitHistory(path[0]);
    }
    if i < |acts| { OwnSteps(path[i], acts[i]); }
  }

  lemma InitHistory(s: State)
    requires Init(s)
    ensures HistoryOk(s)
  {
  }

  /** When no id is attached twice, no interleaving of attaching, disconnecting and leaving
      leaks a link. */
  lemma AttachedOnceNoLeak(path: seq<State>, acts: seq<Action>, i: nat)
    requires IsRun(path, acts) && Distinct(path[|acts|]) && i < |path|
    ensures NoLeak(path[i])
  {
    forall j | 0 <= j < |acts| ensures OwnEntry(path[j], acts[j]) { RunHistory(path, acts, j); }
    NoLeakIff(path, acts);
  }

  /** What a node reports about a peer is a prefix of Connected, Disconnected. Disconnected comes
      only when the peer's reader, not `leave`, took the entry, and always once that reader is
      through; PeerLeft is sent to each remaining peer at most once, and only then. */
  lemma DisconnectReportedOnce(path: seq<State>, acts: seq<Action>, i: nat, l: LinkId)
    requires IsRun(path, acts) && Distinct(path[|acts|]) && i < |path| && l < |path[i].tracks|
    ensures var s, t := path[i], path[i].tracks[l];
      && t.log <= [Connected, Disconnected]
      && (Disconnected in t.log ==> Taken(s, l, Reader))
      && (Taken(s, l, Reader) && (t.stage.Running? || t.stage.Over?) ==> Disconnected in t.log)
      && (Taken(s, l, Leaver) ==> Disconnected !in t.log && t.told == [])
      && NoRepeat(t.told) && (t.told != [] ==> Taken(s, l, Reader))
  {
    hide Apply, Enabled, Init;
    RunHistory(path, acts, i);
    assert TrackOk(path[i], l);
  }

  // ----- whom a host tells -----

  function Untold(t: Track): set<LinkId> { if t.stage.Telling? then t.stage.todo else {} }

  /** At step `i` the reader of link `l` listed the map, and each link in it has been told or is to be. */
  ghost predicate ListedAt(path: seq<State>, acts: seq<Action>, i: nat, j: nat, l: LinkId)
    requires |path| == |acts| + 1 && j < |path| && l < |path[j].tracks|
  {
    && i < j && acts[i] == ListPeers(l)
    && forall m :: (m in path[j].tracks[l].told || m in Untold(path[j].tracks[l])) <==> m in path[i].n.peers.Values
  }

  /** Who reports at once, and who lists its peers first, is a matter of the role. */
  ghost predicate RoleOk(s: State, l: LinkId)
    requires l < |s.tracks|
  {
    var t := s.tracks[l];
    if s.n.role.Host? then !t.stage.Reporting? && (t.stage.Listing? ==> t.told == [])
    else t.told == [] && !t.stage.Listing? && !t.stage.Telling?
  }

  lemma RoleStep(s: State, a: Action, l: LinkId)
    requires Enabled(s, a) && l < |Apply(s, a).tracks| && (l < |s.tracks| ==> RoleOk(s, l) && TrackOk(s, l))
    ensures RoleOk(Apply(s, a), l) && Apply(s, a).n.role == s.n.role
  {
    hide Sound, NoRepeat;
  }

  lemma {:induction false} RunRole(path: seq<State>, acts: seq<Action>, i: nat, l: LinkId)
    requires IsRun(path, acts) && i < |path| && Distinct(path[|acts|])
    ensures path[i].n.role == path[0].n.role && (l < |path[i].tracks| ==> RoleOk(path[i], l))
  {
    hide Apply, Enabled, RoleOk, TrackOk, Init, Distinct;
    if i > 0 {
      RunRole(path, acts, i - 1, l);
      RunHistory(path, acts, i - 1);
      RoleKept(path[i - 1], acts[i - 1]);
      if l < |path[i].tracks| { RoleStep(path[i - 1], acts[i - 1], l); }
    } else {
      assert path[0].tracks == [] by { InitTracks(path[0]); }
    }
  }

  lemma InitTracks(s: State)
    requires Init(s)
    ensures s.tracks == []
  {}

  lemma RoleKept(s: State, a: Action)
    requires Enabled(s, a)
    ensures Apply(s, a).n.role == s.n.role
  {}

  /** A step that neither lists nor belongs to a link without a list keeps the account. */
  lemma TellingStep(s: State, a: Action, l: LinkId)
    requires Enabled(s, a) && l < |s.tracks| && TrackOk(s, l) && s.n.role.Host? && RoleOk(s, l)
    requires TrackOk(Apply(s, a), l)
    ensures var t, u := s.tracks[l], Apply(s, a).tracks[l];
            if a == ListPeers(l) then u.told == [] && Untold(u) == s.n.peers.Values
            else if u.stage.Telling? || Disconnected in u.log
            then (t.stage.Telling? || Disconnected in t.log) &&
                 forall m :: (m in u.told || m in Untold(u)) <==> (m in t.told || m in Untold(t))
            else true
  {
    hide Sound, NoRepeat;
  }

  lemma {:induction false} TellingListed(path: seq<State>, acts: seq<Action>, j: nat, l: LinkId)
    requires IsRun(path, acts) && Distinct(path[|acts|]) && j < |path| && l < |path[j].tracks| && path[0].n.role.Host?
    requires path[j].tracks[l].stage.Telling? || Disconnected in path[j].tracks[l].log
    ensures exists i: nat :: ListedAt(path, acts, i, j, l)
  {
    hide Apply, Enabled, RoleOk, TrackOk, Init, Distinct;
    RunHistory(path, acts, j);
    assert j > 0 by { InitTracks(path[0]); }
    var s, a := path[j - 1], acts[j - 1];
    RunHistory(path, acts, j - 1);
    RunRole(path, acts, j - 1, l);
    OldTrack(s, a, l);
    TellingStep(s, a, l);
    if a == ListPeers(l) {
      assert ListedAt(path, acts, j - 1, j, l);
    } else {
      TellingListed(path, acts, j - 1, l);
      var i: nat :| ListedAt(path, acts, i, j - 1, l);
      assert ListedAt(path, acts, i, j, l);
    }
  }

  lemma OldTrack(s: State, a: Action, l: LinkId)
    requires Enabled(s, a) && l < |Apply(s, a).tracks|
    requires Apply(s, a).tracks[l].stage.Telling? || Disconnected in Apply(s, a).tracks[l].log
    ensures l < |s.tracks|
  {}

  /** The links the map and `leave` speak of are there. */
  ghost predicate There(s: State) {
    (forall id | id in s.n.peers :: s.n.peers[id] < |s.tracks|) && forall l | l in s.byes :: l < |s.tracks|
  }

  lemma StepThere(s: State, a: Action)
    requires There(s) && Enabled(s, a)
    ensures There(Apply(s, a))
  {}

  lemma {:induction false} RunThere(path: seq<State>, acts: seq<Action>, i: nat)
    requires IsRun(path, acts) && i < |path|
    ensures There(path[i])
  {
    hide Enabled, Apply, There;
    if i == 0 { InitThere(path[0]); } else {
      RunThere(path, acts, i - 1);
      StepThere(path[i - 1], acts[i - 1]);
    }
  }

  lemma InitThere(s: State)
    requires Init(s)
    ensures There(s)
  {}

  /** Nobody is stuck: a thread that is not reading or over can take its next step, a node that is leaving
      can drain its map, and what it drained can be closed. */
  lemma ThreadGoesOn(path: seq<State>, acts: seq<Action>, i: nat, l: LinkId) returns (a: Action)
    requires IsRun(path, acts) && i < |path| && l < |path[i].tracks|
    ensures Enabled(path[i], a)
    ensures !path[i].tracks[l].stage.Running? && !path[i].tracks[l].stage.Over? ==> !a.Give? && !a.StopNode? && !a.DrainMap? && a.l == l
    ensures path[i].leaving ==> Enabled(path[i], DrainMap)
    ensures l in path[i].byes ==> Enabled(path[i], CloseBye(l))
  {
    hide Apply, IsRun, Init;
    RunThere(path, acts, i);
    match path[i].tracks[l].stage
    case Attaching => a := Section(l);
    case Refused => a := CloseRefused(l);
    case Registered => a := ReportConnected(l);
    case Removed(_) => a := CloseRemoved(l);
    case Listing(_) => a := ListPeers(l);
    case Telling(_, todo) => if todo == {} { a := ReportGone(l); } else { var m :| m in todo; a := TellPeer(l, m); }
    case Reporting(_) => a := ReportGone(l);
    case _ => a := Give(0);
  }

  /** The thread is past `peer_gone` or in the middle of it, and will go on reading, or end. */
  ghost predicate Winding(t: Stage, again: bool) {
    match t
    case Removed(x) => x == again
    case Listing(x) => x == again
    case Telling(x, _) => x == again
    case Reporting(x) => x == again
    case Running => again
    case Over => !again
    case _ => false
  }

  lemma StepWinding(s: State, a: Action, l: LinkId, again: bool)
    requires Enabled(s, a) && l < |s.tracks| && Winding(s.tracks[l].stage, again) && !(a.PeerGone? && a.l == l)
    ensures l < |Apply(s, a).tracks| && Winding(Apply(s, a).tracks[l].stage, again)
  {}

  /** A reader that met the end of its link stops for good; one that read Bye goes on reading, until it
      meets either again. */
  lemma {:induction false} ByeGoesOn(path: seq<State>, acts: seq<Action>, i: nat, j: nat, l: LinkId, again: bool)
    requires IsRun(path, acts) && i < j < |path| && acts[i] == PeerGone(l, again)
    ensures l < |path[j].tracks|
    ensures Winding(path[j].tracks[l].stage, again) || (again && exists k :: i < k < j && acts[k].PeerGone? && acts[k].l == l)
  {
    hide Enabled, Apply, Winding, Init;
    if j == i + 1 {
      GoneWinds(path[i], l, again);
    } else {
      ByeGoesOn(path, acts, i, j - 1, l, again);
      TracksStay(path[j - 1], acts[j - 1], l);
      if Winding(path[j - 1].tracks[l].stage, again) {
        if acts[j - 1].PeerGone? && acts[j - 1].l == l {
          RunningAgain(path[j - 1], l, acts[j - 1].again, again);
          assert i < j - 1 < j;
        } else {
          StepWinding(path[j - 1], acts[j - 1], l, again);
        }
      } else {
        var k :| i < k < j - 1 && acts[k].PeerGone? && acts[k].l == l;
        assert i < k < j;
      }
    }
  }

  lemma GoneWinds(s: State, l: LinkId, again: bool)
    requires Enabled(s, PeerGone(l, again))
    ensures var t := Apply(s, PeerGone(l, again)); l < |t.tracks| && Winding(t.tracks[l].stage, again)
  {}

  lemma RunningAgain(s: State, l: LinkId, next: bool, again: bool)
    requires Enabled(s, PeerGone(l, next)) && Winding(s.tracks[l].stage, again)
    ensures again
  {}

  lemma TracksStay(s: State, a: Action, l: LinkId)
    requires Enabled(s, a) && l < |s.tracks|
    ensures l < |Apply(s, a).tracks|
  {}

  /** By the time a host has reported Disconnected it has sent PeerLeft to exactly the links that were in
      its map when it listed them, to each once; a joiner sends none. */
  lemma ToldExactly(path: seq<State>, acts: seq<Action>, j: nat, l: LinkId)
    requires IsRun(path, acts) && Distinct(path[|acts|]) && j < |path| && l < |path[j].tracks|
    requires Disconnected in path[j].tracks[l].log
    ensures var told := path[j].tracks[l].told;
            if path[0].n.role.Host?
            then NoRepeat(told) && exists i :: 0 <= i < j && acts[i] == ListPeers(l) && forall m :: m in told <==> m in path[i].n.peers.Values
            else told == []
  {
    hide Apply, Enabled, Init, Distinct;
    RunHistory(path, acts, j);
    RunRole(path, acts, j, l);
    assert TrackOk(path[j], l);
    if path[0].n.role.Host? {
      TellingListed(path, acts, j, l);
      var i: nat :| ListedAt(path, acts, i, j, l);
      assert Untold(path[j].tracks[l]) == {};
      assert acts[i] == ListPeers(l);
    }
  }

  /** Once `leave` has drained the map it stays empty, whatever attaches later. */
  lemma {:induction false} DrainedStaysEmpty(path: seq<State>, acts: seq<Action>, i: nat, j: nat)
    requires IsRun(path, acts) && i < |acts| && acts[i].DrainMap? && i < j < |path|
    ensures path[j].n.peers == map[] && !path[j].n.running
  {
    StoppedForGood(path, acts, i);
    if j > i + 1 { DrainedStaysEmpty(path, acts, i, j - 1); }
  }

  lemma {:induction false} StoppedForGood(path: seq<State>, acts: seq<Action>, i: nat)
    requires IsRun(path, acts) && i < |path|
    ensures path[i].leaving ==> !path[i].n.running
  {
    if i > 0 { StoppedForGood(path, acts, i - 1); }
  }

  // ----- an id attached twice -----

  function Joined(): State {
    State(NodeState(Joiner, true, 0, map[], {}, map[], 1), [], false, {}, map[])
  }

  lemma Then(path: seq<State>, acts: seq<Action>, a: Action) returns (path': seq<State>, acts': seq<Action>)
    requires IsRun(path, acts) && Enabled(path[|acts|], a)
    ensures acts' == acts + [a] && path' == path + [Apply(path[|acts|], a)] && IsRun(path', acts')
    ensures |acts'| == |acts| + 1 && |path'| == |acts'| + 1 && path'[|acts'|] == Apply(path[|acts|], a)
  {
    hide Apply, Enabled;
    path', acts' := path + [Apply(path[|acts|], a)], acts + [a];
  }

  /** `peer_gone` removes by id: a reader still running after Bye takes the entry of a link
      attached later under the same id, and nobody is left to close that link. */
  lemma ReattachedLinkLost() returns (path: seq<State>, acts: seq<Action>)
    ensures IsRun(path, acts) && !NoLeak(path[|acts|])
  {
    hide IsRun;
    path, acts := [Joined()], [];
    assert IsRun(path, acts) by { JoinedRun(); }
    path, acts := Then(path, acts, Give(5));
    path, acts := Then(path, acts, Section(0));
    path, acts := Then(path, acts, ReportConnected(0));
    path, acts := Then(path, acts, PeerGone(0, true));
    path, acts := Then(path, acts, CloseRemoved(0));
    path, acts := Then(path, acts, ReportGone(0));
    path, acts := Then(path, acts, Give(5));
    path, acts := Then(path, acts, Section(1));
    path, acts := Then(path, acts, PeerGone(0, false));
    assert !Accounted(path[|acts|], 1);
  }

  /** Two calls of one caller may both be waiting to attach: the check that the caller is not linked yet
      is a section of its own before the answer is sent. The second then overwrites the first entry,
      and nobody is left to close the first link. */
  lemma SecondCallOverwrites() returns (path: seq<State>, acts: seq<Action>)
    ensures IsRun(path, acts) && !NoLeak(path[|acts|])
    ensures forall i | 0 <= i < |acts| :: acts[i].Give? || acts[i].Section?
  {
    hide IsRun;
    path, acts := [Joined()], [];
    assert IsRun(path, acts) by { JoinedRun(); }
    path, acts := Then(path, acts, Give(5));
    path, acts := Then(path, acts, Give(5));
    path, acts := Then(path, acts, Section(0));
    path, acts := Then(path, acts, Section(1));
    assert !Accounted(path[|acts|], 0);
  }

  lemma JoinedRun()
    ensures IsRun([Joined()], [])
  {
  }
}
