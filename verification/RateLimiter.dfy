/** Join-attempt throttling (core/src/ratelimit.rs): a pruned two-index structure that answers
    exactly like a limiter that keeps every admitted attempt. */
module RateLimiter {

  datatype Policy = Policy(perSource: nat, global: nat, window: nat)

  const DEFAULT_POLICY := Policy(5, 30, 60)

  /** `now.duration_since(t)`, which saturates at zero. */
  function Age(now: nat, t: nat): nat { if t <= now then now - t else 0 }

  predicate IsLive(t: nat, now: nat, window: nat) { Age(now, t) < window }

  function KeepIf<T>(front: seq<T>, last: T, keep: bool): seq<T> { if keep then front + [last] else front }

  /** The instants still inside the window. */
  function Live(times: seq<nat>, now: nat, window: nat): seq<nat> {
    if times == [] then []
    else KeepIf(Live(times[..|times| - 1], now, window), times[|times| - 1], IsLive(times[|times| - 1], now, window))
  }

  type Hits = map<string, seq<nat>>

  function Of(hits: Hits, source: string): seq<nat> { if source in hits then hits[source] else [] }

  datatype Limiter = Limiter(hits: Hits, all: seq<nat>)

  const EMPTY := Limiter(map[], [])

  function Allow(p: Policy, l: Limiter, source: string, now: nat): (Limiter, bool) {
    var all := Live(l.all, now, p.window);
    var entry := Live(Of(l.hits, source), now, p.window);
    if |entry| >= p.perSource || |all| >= p.global
    then (Limiter(l.hits[source := entry], all), false)
    else (Limiter(l.hits[source := entry + [now]], all + [now]), true)
  }

  function Sweep(p: Policy, l: Limiter, now: nat): Limiter {
    l.(hits := map s | s in l.hits && exists i :: 0 <= i < |l.hits[s]| && IsLive(l.hits[s][i], now, p.window) :: l.hits[s])
  }

  /** The object of the source; the clock reading is a parameter of each call. */
  class RateLimiter {
    const policy: Policy
    var hits: Hits
    var all: seq<nat>

    function State(): Limiter
      reads this
    {
      Limiter(hits, all)
    }

    constructor (p: Policy)
      ensures policy == p && State() == EMPTY
    {
      policy := p;
      hits, all := map[], [];
    }

    constructor Default()
      ensures policy == Policy(5, 30, 60) && State() == EMPTY
    {
      policy := DEFAULT_POLICY;
      hits, all := map[], [];
    }

    /** `Vec::retain` with the liveness test. */
    static method Retain(times: seq<nat>, now: nat, window: nat) returns (kept: seq<nat>)
      ensures kept == Live(times, now, window)
    {
      kept := [];
      for i := 0 to |times|
        invariant kept == Live(times[..i], now, window)
      {
        assert times[..i + 1][..i] == times[..i];
        if IsLive(times[i], now, window) { kept := kept + [times[i]]; }
      }
      assert times[..|times|] == times;
    }

    method TryAllow(source: string, now: nat) returns (ok: bool)
      modifies this
      ensures State() == Allow(policy, old(State()), source, now).0
      ensures ok == Allow(policy, old(State()), source, now).1
    {
      ghost var before := hits;
      all := Retain(all, now, policy.window);
      var entry := if source in hits then hits[source] else [];
      entry := Retain(entry, now, policy.window);
      hits := hits[source := entry];
      if |entry| >= policy.perSource || |all| >= policy.global { return false; }
      hits := hits[source := entry + [now]];
      assert hits == before[source := entry + [now]];
      all := all + [now];
      ok := true;
    }

    method SweepAll(now: nat)
      modifies this
      ensures State() == Sweep(policy, old(State()), now)
    {
      hits := map s | s in hits && exists i :: 0 <= i < |hits[s]| && IsLive(hits[s][i], now, policy.window) :: hits[s];
    }
  }

  // ----- the reference: a log of every admitted attempt, never pruned -----

  datatype Hit = Hit(source: string, at: nat)

  /** Admitted attempts of `source`, or of everybody for None, in the order they came. */
  datatype Who = Everybody | Only(source: string)

  predicate Counts(h: Hit, who: Who) { who.Everybody? || h.source == who.source }

  function Times(log: seq<Hit>, who: Who): seq<nat> {
    if log == [] then []
    else KeepIf(Times(log[..|log| - 1], who), log[|log| - 1].at, Counts(log[|log| - 1], who))
  }

  /** How many admitted attempts are still inside the window at `now`. */
  function LiveCount(log: seq<Hit>, who: Who, now: nat, window: nat): nat { |Live(Times(log, who), now, window)| }

  predicate LogAllows(p: Policy, log: seq<Hit>, source: string, now: nat) {
    LiveCount(log, Only(source), now, p.window) < p.perSource && LiveCount(log, Everybody, now, p.window) < p.global
  }

  datatype Op = Try(source: string, at: nat) | Prune(at: nat)

  /** The clock never runs backwards. */
  predicate Monotone(ops: seq<Op>) { forall i, j | 0 <= i < j < |ops| :: ops[i].at <= ops[j].at }

  /** The limiter after `ops`, and its answers to the `allow` calls among them. */
  function Run(p: Policy, ops: seq<Op>): (Limiter, seq<bool>) {
    if ops == [] then (EMPTY, []) else
    var (l, answers) := Run(p, ops[..|ops| - 1]);
    match ops[|ops| - 1]
    case Try(source, now) => var (l', ok) := Allow(p, l, source, now); (l', answers + [ok])
    case Prune(now) => (Sweep(p, l, now), answers)
  }

  /** The same for the reference. */
  function RunLog(p: Policy, ops: seq<Op>): (seq<Hit>, seq<bool>) {
    if ops == [] then ([], []) else
    var (log, answers) := RunLog(p, ops[..|ops| - 1]);
    match ops[|ops| - 1]
    case Try(source, now) =>
      var ok := LogAllows(p, log, source, now);
      (if ok then log + [Hit(source, now)] else log, answers + [ok])
    case Prune(_) => (log, answers)
  }

  // ----- liveness only decays -----

  lemma {:induction false} LiveAgain(times: seq<nat>, now: nat, later: nat, window: nat)
    requires now <= later && Past(times, now)
    ensures Live(Live(times, now, window), later, window) == Live(times, later, window)
  {
    if times != [] {
      var front, t := times[..|times| - 1], times[|times| - 1];
      LiveAgain(front, now, later, window);
      assert IsLive(t, later, window) ==> IsLive(t, now, window);
      if IsLive(t, now, window) {
        LiveAppend(Live(front, now, window), t, later, window);
      }
    }
  }

  lemma LiveAppend(times: seq<nat>, t: nat, now: nat, window: nat)
    ensures Live(times + [t], now, window) == KeepIf(Live(times, now, window), t, IsLive(t, now, window))
  {
    assert (times + [t])[..|times|] == times;
  }

  lemma {:induction false} LiveSound(times: seq<nat>, now: nat, window: nat)
    ensures forall i | 0 <= i < |Live(times, now, window)| :: Live(times, now, window)[i] in times
    ensures (exists i :: 0 <= i < |times| && IsLive(times[i], now, window)) <==> Live(times, now, window) != []
  {
    if times != [] {
      var front := times[..|times| - 1];
      LiveSound(front, now, window);
      if i :| 0 <= i < |times| && IsLive(times[i], now, window) {
        if i < |times| - 1 { assert IsLive(front[i], now, window); }
      }
      if Live(front, now, window) != [] {
        var i :| 0 <= i < |front| && IsLive(front[i], now, window);
        assert IsLive(times[i], now, window);
      }
    }
  }

  lemma TimesAppend(log: seq<Hit>, h: Hit, who: Who)
    ensures Times(log + [h], who) == KeepIf(Times(log, who), h.at, Counts(h, who))
  {
    assert (log + [h])[..|log|] == log;
  }

  // ----- refinement -----

  predicate Past(times: seq<nat>, now: nat) { forall i | 0 <= i < |times| :: times[i] <= now }

  /** At every instant from `now` on, a pruned list and the log have the same live instants in the
      same order. */
  ghost predicate Agree(times: seq<nat>, logged: seq<nat>, now: nat, window: nat) {
    Past(times, now) && forall later | now <= later :: Live(times, later, window) == Live(logged, later, window)
  }

  ghost predicate Refines(p: Policy, l: Limiter, log: seq<Hit>, now: nat) {
    && Agree(l.all, Times(log, Everybody), now, p.window)
    && forall s: string :: Agree(Of(l.hits, s), Times(log, Only(s)), now, p.window)
  }

  lemma AgreeLater(times: seq<nat>, logged: seq<nat>, now: nat, later: nat, window: nat)
    requires now <= later && Agree(times, logged, now, window)
    ensures Agree(times, logged, later, window)
  {
    forall i | 0 <= i < |times| ensures times[i] <= later { assert times[i] <= now; }
  }

  /** `retain` keeps the agreement, and so does recording the same instant on both sides. */
  lemma AgreePruned(times: seq<nat>, logged: seq<nat>, now: nat, window: nat)
    requires Agree(times, logged, now, window)
    ensures Agree(Live(times, now, window), logged, now, window)
    ensures Agree(Live(times, now, window) + [now], logged + [now], now, window)
  {
    var kept := Live(times, now, window);
    LiveSound(times, now, window);
    assert Past(kept, now) && Past(kept + [now], now);
    forall later | now <= later
      ensures Live(kept, later, window) == Live(logged, later, window)
      ensures Live(kept + [now], later, window) == Live(logged + [now], later, window)
    {
      LiveAgain(times, now, later, window);
      LiveAppend(kept, now, later, window);
      LiveAppend(logged, now, later, window);
    }
  }

  /** One `allow`: the same answer as the log, and both sides go on agreeing. */
  lemma AllowRefines(p: Policy, l: Limiter, log: seq<Hit>, source: string, before: nat, now: nat)
    requires Refines(p, l, log, before) && before <= now
    ensures Allow(p, l, source, now).1 == LogAllows(p, log, source, now)
    ensures Refines(p, Allow(p, l, source, now).0,
                    if LogAllows(p, log, source, now) then log + [Hit(source, now)] else log, now)
  {
    hide Live, Times, Agree;
    var all, entry := Live(l.all, now, p.window), Live(Of(l.hits, source), now, p.window);
    AgreeLater(l.all, Times(log, Everybody), before, now, p.window);
    AgreePruned(l.all, Times(log, Everybody), now, p.window);
    AgreeNow(l.all, Times(log, Everybody), now, p.window);
    AgreeLater(Of(l.hits, source), Times(log, Only(source)), before, now, p.window);
    AgreePruned(Of(l.hits, source), Times(log, Only(source)), now, p.window);
    AgreeNow(Of(l.hits, source), Times(log, Only(source)), now, p.window);
    var (l', ok) := Allow(p, l, source, now);
    var log' := if ok then log + [Hit(source, now)] else log;
    TimesAppend(log, Hit(source, now), Everybody);
    TimesAppend(log, Hit(source, now), Only(source));
    forall s: string ensures Agree(Of(l'.hits, s), Times(log', Only(s)), now, p.window) {
      AgreeLater(Of(l.hits, s), Times(log, Only(s)), before, now, p.window);
      TimesAppend(log, Hit(source, now), Only(s));
    }
  }

  lemma RefinesLater(p: Policy, l: Limiter, log: seq<Hit>, now: nat, later: nat)
    requires Refines(p, l, log, now) && now <= later
    ensures Refines(p, l, log, later)
  {
    AgreeLater(l.all, Times(log, Everybody), now, later, p.window);
    forall s: string ensures Agree(Of(l.hits, s), Times(log, Only(s)), later, p.window) {
      AgreeLater(Of(l.hits, s), Times(log, Only(s)), now, later, p.window);
    }
  }

  lemma AgreeNow(times: seq<nat>, logged: seq<nat>, now: nat, window: nat)
    requires Agree(times, logged, now, window)
    ensures Live(times, now, window) == Live(logged, now, window)
  {}

  /** One `sweep`: only sources without a live instant go, and those never come back to life. */
  lemma SweepRefines(p: Policy, l: Limiter, log: seq<Hit>, before: nat, now: nat)
    requires Refines(p, l, log, before) && before <= now
    ensures Refines(p, Sweep(p, l, now), log, now)
  {
    var l' := Sweep(p, l, now);
    AgreeLater(l.all, Times(log, Everybody), before, now, p.window);
    forall s: string ensures Agree(Of(l'.hits, s), Times(log, Only(s)), now, p.window) {
      AgreeLater(Of(l.hits, s), Times(log, Only(s)), before, now, p.window);
      if s in l.hits && s !in l'.hits {
        LiveSound(l.hits[s], now, p.window);
        AgreePruned(Of(l.hits, s), Times(log, Only(s)), now, p.window);
        assert Live(l.hits[s], now, p.window) == [];
      }
    }
  }

  function Clock(ops: seq<Op>): nat { if ops == [] then 0 else ops[|ops| - 1].at }

  /** For every sequence of `allow` and `sweep` calls under a clock that never runs backwards, the
      limiter answers exactly as the full log does. */
  lemma {:induction false} AnswersLikeTheLog(p: Policy, ops: seq<Op>)
    requires Monotone(ops)
    ensures Run(p, ops).1 == RunLog(p, ops).1
    ensures Refines(p, Run(p, ops).0, RunLog(p, ops).0, Clock(ops))
  {
    if ops != [] {
      var front, op := ops[..|ops| - 1], ops[|ops| - 1];
      assert Monotone(front);
      AnswersLikeTheLog(p, front);
      hide Refines, Allow, Sweep, LogAllows;
      var l, log := Run(p, front).0, RunLog(p, front).0;
      match op
      case Try(source, now) => AllowRefines(p, l, log, source, Clock(front), now);
      case Prune(now) => SweepRefines(p, l, log, Clock(front), now);
    }
  }

  /** The `allow` calls of a run, without the sweeps between them. */
  function Tries(ops: seq<Op>): seq<Op> {
    if ops == [] then []
    else KeepIf(Tries(ops[..|ops| - 1]), ops[|ops| - 1], ops[|ops| - 1].Try?)
  }

  lemma {:induction false} TriesMonotone(ops: seq<Op>)
    requires Monotone(ops)
    ensures Monotone(Tries(ops)) && forall i | 0 <= i < |Tries(ops)| :: Tries(ops)[i].at <= Clock(ops)
  {
    if ops != [] {
      assert Monotone(ops[..|ops| - 1]);
      TriesMonotone(ops[..|ops| - 1]);
    }
  }

  lemma {:induction false} LogIgnoresSweeps(p: Policy, ops: seq<Op>)
    ensures RunLog(p, ops) == RunLog(p, Tries(ops))
  {
    if ops != [] {
      var front, op := ops[..|ops| - 1], ops[|ops| - 1];
      LogIgnoresSweeps(p, front);
      hide LogAllows;
      if op.Try? { assert Tries(ops)[..|Tries(ops)| - 1] == Tries(front); }
    }
  }

  /** Sweeping is invisible: two runs with the same `allow` calls get the same answers, wherever and
      however often either of them sweeps. */
  lemma SweepsInvisible(p: Policy, ops: seq<Op>, other: seq<Op>)
    requires Monotone(ops) && Monotone(other) && Tries(ops) == Tries(other)
    ensures Run(p, ops).1 == Run(p, other).1
  {
    AnswersLikeTheLog(p, ops);
    AnswersLikeTheLog(p, other);
    LogIgnoresSweeps(p, ops);
    LogIgnoresSweeps(p, other);
  }

  // ----- the two indexes hold the same instants -----

  /** The live instants of a list, without their order. */
  function Bag(times: seq<nat>, now: nat, window: nat): multiset<nat> { multiset(Live(times, now, window)) }

  function One(t: nat, present: bool): multiset<nat> { if present then multiset{t} else multiset{} }

  function Union(hits: Hits, names: seq<string>, now: nat, window: nat): multiset<nat> {
    if names == [] then multiset{}
    else Union(hits, names[..|names| - 1], now, window) + Bag(Of(hits, names[|names| - 1]), now, window)
  }

  function LogUnion(log: seq<Hit>, names: seq<string>, now: nat, window: nat): multiset<nat> {
    if names == [] then multiset{}
    else LogUnion(log, names[..|names| - 1], now, window) + Bag(Times(log, Only(names[|names| - 1])), now, window)
  }

  predicate Distinct(names: seq<string>) { forall i, j | 0 <= i < j < |names| :: names[i] != names[j] }

  lemma BagAppend(log: seq<Hit>, h: Hit, who: Who, now: nat, window: nat)
    ensures Bag(Times(log + [h], who), now, window) ==
            Bag(Times(log, who), now, window) + One(h.at, Counts(h, who) && IsLive(h.at, now, window))
  {
    TimesAppend(log, h, who);
    LiveAppend(Times(log, who), h.at, now, window);
  }

  lemma InFrontOrLast(names: seq<string>, name: string)
    requires Distinct(names) && names != []
    ensures name in names <==> name in names[..|names| - 1] || name == names[|names| - 1]
    ensures !(name in names[..|names| - 1] && name == names[|names| - 1])
  {
    assert names == names[..|names| - 1] + [names[|names| - 1]];
  }

  lemma OneSplits(t: nat, front: bool, last: bool, live: bool, a: multiset<nat>, b: multiset<nat>)
    requires !(front && last)
    ensures (a + One(t, front && live)) + (b + One(t, last && live)) == (a + b) + One(t, (front || last) && live)
  {}

  lemma {:induction false} LogUnionAppend(log: seq<Hit>, h: Hit, names: seq<string>, now: nat, window: nat)
    requires Distinct(names)
    ensures LogUnion(log + [h], names, now, window) ==
            LogUnion(log, names, now, window) + One(h.at, h.source in names && IsLive(h.at, now, window))
  {
    if names != [] {
      var front, name := names[..|names| - 1], names[|names| - 1];
      LogUnionAppend(log, h, front, now, window);
      BagAppend(log, h, Only(name), now, window);
      InFrontOrLast(names, h.source);
      OneSplits(h.at, h.source in front, h.source == name, IsLive(h.at, now, window),
                LogUnion(log, front, now, window), Bag(Times(log, Only(name)), now, window));
    }
  }

  lemma {:induction false} LogUnionEmpty(names: seq<string>, now: nat, window: nat)
    ensures LogUnion([], names, now, window) == multiset{}
  {
    if names != [] { LogUnionEmpty(names[..|names| - 1], now, window); }
  }

  lemma {:induction false} LogSplits(log: seq<Hit>, names: seq<string>, now: nat, window: nat)
    requires Distinct(names)
    requires forall i | 0 <= i < |log| && IsLive(log[i].at, now, window) :: log[i].source in names
    ensures Bag(Times(log, Everybody), now, window) == LogUnion(log, names, now, window)
  {
    if log == [] {
      LogUnionEmpty(names, now, window);
    } else {
      var front, h := log[..|log| - 1], log[|log| - 1];
      assert log == front + [h];
      LogSplits(front, names, now, window);
      LogUnionAppend(front, h, names, now, window);
      hide Bag, Times, IsLive, LogUnion, Distinct;
      BagAppend(front, h, Everybody, now, window);
    }
  }

  lemma {:induction false} UnionsAgree(p: Policy, l: Limiter, log: seq<Hit>, names: seq<string>, now: nat)
    requires Refines(p, l, log, now)
    ensures Union(l.hits, names, now, p.window) == LogUnion(log, names, now, p.window)
  {
    if names != [] {
      UnionsAgree(p, l, log, names[..|names| - 1], now);
      var s := names[|names| - 1];
      AgreeNow(Of(l.hits, s), Times(log, Only(s)), now, p.window);
    }
  }

  lemma {:induction false} LiveHitListed(log: seq<Hit>, i: nat, now: nat, window: nat)
    requires i < |log| && IsLive(log[i].at, now, window)
    ensures Live(Times(log, Only(log[i].source)), now, window) != []
  {
    var front, h := log[..|log| - 1], log[|log| - 1];
    var who := Only(log[i].source);
    assert log == front + [h];
    TimesAppend(front, h, who);
    if Counts(h, who) { LiveAppend(Times(front, who), h.at, now, window); }
    if i < |front| { LiveHitListed(front, i, now, window); }
  }

  /** After any run and at every instant from its last call on, the live part of the global list is, as
      a multiset, the union of the live parts of the per-source lists (in whatever order the sources
      are listed). */
  lemma GlobalIsUnionOfSources(p: Policy, ops: seq<Op>, names: seq<string>, now: nat)
    requires Monotone(ops) && Distinct(names) && Clock(ops) <= now
    requires forall s | s in Run(p, ops).0.hits :: s in names
    ensures Bag(Run(p, ops).0.all, now, p.window) == Union(Run(p, ops).0.hits, names, now, p.window)
  {
    AnswersLikeTheLog(p, ops);
    var l, log := Run(p, ops).0, RunLog(p, ops).0;
    RefinesLater(p, l, log, Clock(ops), now);
    UnionsAgree(p, l, log, names, now);
    AgreeNow(l.all, Times(log, Everybody), now, p.window);
    forall i | 0 <= i < |log| && IsLive(log[i].at, now, p.window) ensures log[i].source in names {
      var s := log[i].source;
      LiveHitListed(log, i, now, p.window);
      AgreeNow(Of(l.hits, s), Times(log, Only(s)), now, p.window);
    }
    LogSplits(log, names, now, p.window);
  }

  // ----- which attempts are let through -----

  /** Call `i` was an attempt, and the limiter let it through. */
  predicate LetThrough(p: Policy, ops: seq<Op>, i: nat) {
    i < |ops| && ops[i].Try? && Allow(p, Run(p, ops[..i]).0, ops[i].source, ops[i].at).1
  }

  predicate By(op: Op, who: Who) { op.Try? && (who.Everybody? || op.source == who.source) }

  /** The attempts let through that are less than the window old at `now`. */
  ghost function Recent(p: Policy, ops: seq<Op>, who: Who, now: nat): set<nat> {
    set i | 0 <= i < |ops| && LetThrough(p, ops, i) && By(ops[i], who) && now < ops[i].at + p.window
  }

  /** The attempts let through in the window that begins at `start`. */
  ghost function During(p: Policy, ops: seq<Op>, who: Who, start: nat): set<nat> {
    set i | 0 <= i < |ops| && LetThrough(p, ops, i) && By(ops[i], who) && start <= ops[i].at < start + p.window
  }

  /** An attempt is let through if and only if fewer than `perSource` attempts of its source, and fewer
      than `global` attempts in all, were let through less than the window ago. */
  lemma AllowedIff(p: Policy, ops: seq<Op>, source: string, now: nat)
    requires Monotone(ops) && Clock(ops) <= now
    ensures Allow(p, Run(p, ops).0, source, now).1 <==>
            |Recent(p, ops, Only(source), now)| < p.perSource && |Recent(p, ops, Everybody, now)| < p.global
  {
    AnswersLikeTheLog(p, ops);
    AllowRefines(p, Run(p, ops).0, RunLog(p, ops).0, source, Clock(ops), now);
    CountsRecent(p, ops, Only(source), now);
    CountsRecent(p, ops, Everybody, now);
  }

  /** The log counts what was let through and is recent. */
  lemma {:induction false} CountsRecent(p: Policy, ops: seq<Op>, who: Who, now: nat)
    requires Monotone(ops) && Clock(ops) <= now
    ensures LiveCount(RunLog(p, ops).0, who, now, p.window) == |Recent(p, ops, who, now)|
  {
    if ops == [] {
      assert Recent(p, ops, who, now) == {};
    } else {
      var front, op := ops[..|ops| - 1], ops[|ops| - 1];
      assert Monotone(front);
      CountsRecent(p, front, who, now);
      RecentGrows(p, ops, who, now);
      assert ops == front + [op];
      if op.Try? {
        LogGrows(p, front, op.source, op.at);
        CountGrows(RunLog(p, front).0, Hit(op.source, op.at), who, now, p.window);
        hide LiveCount, LetThrough, Recent, Allow, LogAllows;
      } else {
        hide LiveCount, Recent, Allow, LogAllows;
      }
    }
  }

  lemma CountGrows(log: seq<Hit>, h: Hit, who: Who, now: nat, window: nat)
    requires h.at <= now
    ensures LiveCount(log + [h], who, now, window) == LiveCount(log, who, now, window) +
            if Counts(h, who) && now < h.at + window then 1 else 0
  {
    TimesAppend(log, h, who);
    LiveAppend(Times(log, who), h.at, now, window);
  }

  /** A further attempt is logged if and only if it is let through. */
  lemma LogGrows(p: Policy, front: seq<Op>, source: string, now: nat)
    requires Monotone(front + [Try(source, now)])
    ensures var ops := front + [Try(source, now)];
            RunLog(p, ops).0 == if LetThrough(p, ops, |front|) then RunLog(p, front).0 + [Hit(source, now)] else RunLog(p, front).0
  {
    var ops := front + [Try(source, now)];
    assert ops[..|front|] == front;
    assert Monotone(front) by { forall i, j | 0 <= i < j < |front| ensures front[i].at <= front[j].at { assert ops[i].at <= ops[j].at; } }
    assert Clock(front) <= now by { if front != [] { assert ops[|front| - 1].at <= ops[|front|].at; } }
    AnswersLikeTheLog(p, front);
    AllowRefines(p, Run(p, front).0, RunLog(p, front).0, source, Clock(front), now);
    hide Allow, LogAllows, Run;
  }

  lemma RecentGrows(p: Policy, ops: seq<Op>, who: Who, now: nat)
    requires ops != []
    ensures var front, op := ops[..|ops| - 1], ops[|ops| - 1];
            var counted := LetThrough(p, ops, |front|) && By(op, who) && now < op.at + p.window;
            |front| !in Recent(p, front, who, now) &&
            Recent(p, ops, who, now) == Recent(p, front, who, now) + if counted then {|front|} else {}
  {
    LetThroughFront(p, ops);
    hide LetThrough, By;
    var front, op := ops[..|ops| - 1], ops[|ops| - 1];
    var counted := LetThrough(p, ops, |front|) && By(op, who) && now < op.at + p.window;
    forall i: int ensures i in Recent(p, ops, who, now) <==> i in Recent(p, front, who, now) || (counted && i == |front|) {
      if 0 <= i < |front| { assert ops[i] == front[i]; }
    }
  }

  lemma LetThroughFront(p: Policy, ops: seq<Op>)
    requires ops != []
    ensures forall i: nat | i < |ops| - 1 :: LetThrough(p, ops, i) == LetThrough(p, ops[..|ops| - 1], i)
  {
    var front := ops[..|ops| - 1];
    forall i: nat | i < |front| ensures LetThrough(p, ops, i) == LetThrough(p, front, i) { assert ops[..i] == front[..i]; }
  }

  /** Whoever comes when nobody was let through for a whole window is let through. */
  lemma QuietRoomAllows(p: Policy, ops: seq<Op>, source: string, now: nat)
    requires Monotone(ops) && Clock(ops) <= now && p.perSource > 0 && p.global > 0
    requires forall i | 0 <= i < |ops| && LetThrough(p, ops, i) :: ops[i].at + p.window <= now
    ensures Allow(p, Run(p, ops).0, source, now).1
  {
    assert Recent(p, ops, Only(source), now) == {} && Recent(p, ops, Everybody, now) == {};
    AllowedIff(p, ops, source, now);
  }

  /** In every interval of the window's length, wherever it starts, at most `perSource` attempts of
      any one source and at most `global` attempts overall are let through. */
  lemma {:induction false} BudgetHolds(p: Policy, ops: seq<Op>, source: string, start: nat)
    requires Monotone(ops)
    ensures |During(p, ops, Only(source), start)| <= p.perSource
    ensures |During(p, ops, Everybody, start)| <= p.global
  {
    if ops == [] {
      assert During(p, ops, Only(source), start) == {} && During(p, ops, Everybody, start) == {};
    } else {
      var front, op := ops[..|ops| - 1], ops[|ops| - 1];
      assert Monotone(front);
      BudgetHolds(p, front, source, start);
      if op.Try? { AllowedIff(p, front, op.source, op.at); }
      DuringStep(p, ops, Only(source), start);
      DuringStep(p, ops, Everybody, start);
    }
  }

  /** Seen from inside the interval, everything let through earlier in it is recent. */
  lemma DuringStep(p: Policy, ops: seq<Op>, who: Who, start: nat)
    requires Monotone(ops) && ops != []
    ensures var front, op := ops[..|ops| - 1], ops[|ops| - 1];
            if LetThrough(p, ops, |front|) && By(op, who) && start <= op.at < start + p.window
            then |During(p, ops, who, start)| == |During(p, front, who, start)| + 1
                 && |During(p, front, who, start)| <= |Recent(p, front, who, op.at)|
            else During(p, ops, who, start) == During(p, front, who, start)
  {
    var front, op := ops[..|ops| - 1], ops[|ops| - 1];
    var before, recent := During(p, front, who, start), Recent(p, front, who, op.at);
    DuringGrows(p, ops, who, start);
    if start <= op.at < start + p.window {
      assert before <= recent by { hide LetThrough, By; }
      SubsetSmaller(before, recent);
    }
    hide During, Recent, LetThrough, By;
  }

  lemma DuringGrows(p: Policy, ops: seq<Op>, who: Who, start: nat)
    requires ops != []
    ensures var front, op := ops[..|ops| - 1], ops[|ops| - 1];
            var counted := LetThrough(p, ops, |front|) && By(op, who) && start <= op.at < start + p.window;
            |front| !in During(p, front, who, start) &&
            During(p, ops, who, start) == During(p, front, who, start) + if counted then {|front|} else {}
  {
    LetThroughFront(p, ops);
    hide LetThrough, By;
    var front, op := ops[..|ops| - 1], ops[|ops| - 1];
    var counted := LetThrough(p, ops, |front|) && By(op, who) && start <= op.at < start + p.window;
    forall i: int ensures i in During(p, ops, who, start) <==> i in During(p, front, who, start) || (counted && i == |front|) {
      if 0 <= i < |front| { assert ops[i] == front[i]; }
    }
  }

  lemma {:induction false} SubsetSmaller<T>(a: set<T>, b: set<T>)
    requires a <= b
    ensures |a| <= |b|
  {
    assert b == a + (b - a);
  }

  // ----- what is kept -----

  /** Neither index outgrows its budget, however many attempts are made. */
  lemma {:induction false} MemoryBounded(p: Policy, ops: seq<Op>)
    ensures var l := Run(p, ops).0; |l.all| <= p.global && forall s | s in l.hits :: |l.hits[s]| <= p.perSource
  {
    if ops != [] {
      MemoryBounded(p, ops[..|ops| - 1]);
      var l, op := Run(p, ops[..|ops| - 1]).0, ops[|ops| - 1];
      LiveShorter(l.all, op.at, p.window);
      if op.Try? { LiveShorter(Of(l.hits, op.source), op.at, p.window); }
    }
  }

  lemma {:induction false} LiveShorter(times: seq<nat>, now: nat, window: nat)
    ensures |Live(times, now, window)| <= |times|
  {
    if times != [] { LiveShorter(times[..|times| - 1], now, window); }
  }

  /** After a sweep the sources on record are those with an attempt let through less than the window ago. */
  lemma SweptExactly(p: Policy, ops: seq<Op>, now: nat, source: string)
    requires Monotone(ops) && Clock(ops) <= now
    ensures source in Sweep(p, Run(p, ops).0, now).hits <==> Recent(p, ops, Only(source), now) != {}
    ensures Sweep(p, Run(p, ops).0, now).all == Run(p, ops).0.all
  {
    AnswersLikeTheLog(p, ops);
    var l, log := Run(p, ops).0, RunLog(p, ops).0;
    RefinesLater(p, l, log, Clock(ops), now);
    AgreeNow(Of(l.hits, source), Times(log, Only(source)), now, p.window);
    CountsRecent(p, ops, Only(source), now);
    LiveSound(Of(l.hits, source), now, p.window);
    assert |Recent(p, ops, Only(source), now)| == 0 <==> Recent(p, ops, Only(source), now) == {};
  }
}
