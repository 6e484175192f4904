/** What becomes of an answer: a Decline ends the transfer on both sides, an Accept starts it, neither
    needing a timeout; and what a departure and a rejected chunk tell the sender. */
module TransferAnswers {
  import opened Bytes
  import opened TransferTable
  import opened Transfer
  import opened TransferSafety
  import opened TransferTheorems

  // ----- the sender's registration -----

  /** A sender that waits is registered, unless its recipient has departed; one that is through is not. */
  predicate Registered(s: Sender, lost: bool) {
    && (s.gone ==> lost) && (s.pc.Over? && s.reports == [] ==> lost)
    && (!s.pc.Fresh? && !s.pc.Reporting? && !s.pc.Over? && !s.gone ==> s.waiter && s.target)
    && (s.pc.Fresh? || s.pc.Reporting? || (s.pc.Over? && s.reports != []) ==> !s.waiter && !s.target)
  }

  lemma RegisteredSender(c: Config, st: State, a: Action)
    requires Registered(st.s, st.h.lost) && (!st.s.pc.Over? ==> st.s.reports == []) && BySender(a) && SenderEnabled(st, a)
    ensures var t := SenderApply(st, a); Registered(t.s, t.h.lost)
  {
    if a.ReportOut? {
      assert |SenderApply(st, a).s.reports| > 0;
    } else {
      ReportsKept(st, a);
    }
  }

  lemma ReportsKept(st: State, a: Action)
    requires BySender(a) && SenderEnabled(st, a) && !a.ReportOut?
    ensures var t := SenderApply(st, a);
            t.s.reports == st.s.reports && t.s.gone == st.s.gone && (st.h.lost ==> t.h.lost) && (t.s.pc.Over? ==> t.h.lost)
  {}

  lemma RegisteredLink(c: Config, st: State, a: Action)
    requires Registered(st.s, st.h.lost) && !BySender(a) && !ByReceiver(a) && LinkEnabled(st, a)
    ensures var t := LinkApply(c, st, a); Registered(t.s, t.h.lost)
  {
    hide Hear;
  }

  lemma LostStays(st: State, a: Action)
    requires ByReceiver(a) && ReceiverEnabled(st, a)
    ensures var t := ReceiverApply(st, a); t.s == st.s && (st.h.lost ==> t.h.lost)
  {}

  lemma StepRegistered(c: Config, st: State, a: Action)
    requires SenderOk(c, st.s) && Registered(st.s, st.h.lost) && Enabled(st, a)
    ensures var t := Apply(c, st, a); Registered(t.s, t.h.lost)
  {
    if BySender(a) { RegisteredSender(c, st, a); } else if ByReceiver(a) { LostStays(st, a); } else { RegisteredLink(c, st, a); }
    hide SenderOk, BySender, ByReceiver, SenderApply, SenderEnabled, ReceiverApply, ReceiverEnabled, LinkApply, LinkEnabled;
  }

  lemma {:induction false} RunRegistered(c: Config, path: seq<State>, acts: seq<Action>, i: nat)
    requires IsRun(c, path, acts) && i < |path|
    ensures Registered(path[i].s, path[i].h.lost)
  {
    hide Enabled, Apply, Registered, Shape;
    if i == 0 {
      InitRegistered(c);
    } else {
      RunRegistered(c, path, acts, i - 1);
      RunShape(c, path, acts, i - 1);
      ShapeSenderOk(c, path[i - 1]);
      StepRegistered(c, path[i - 1], acts[i - 1]);
    }
  }

  lemma InitRegistered(c: Config)
    ensures Registered(Init(c).s, Init(c).h.lost)
  {}

  lemma ShapeSenderOk(c: Config, st: State)
    requires Shape(c, st)
    ensures SenderOk(c, st.s)
  {
    hide SenderOk;
  }

  // ----- a Decline -----

  /** The receiver has declined, or has reported that it did. */
  predicate Declining(r: Receiver) { r.pc.Declined? || r.reports == [false] }

  /** With nothing lost the sender has heard of it, or will. */
  ghost predicate NoComing(st: State) {
    && Declining(st.r) && !st.h.inserted
    && (!st.h.lost ==>
          && (st.s.pc.Awaiting? || st.s.pc.Aborting? || st.s.pc == Finishing(false) || st.s.pc == Reporting(false)
              || (st.s.pc.Over? && st.s.reports == [false]))
          && (st.s.pc.Awaiting? ==> DeclineMsg in st.up || Decline in st.s.channel))
  }

  /** Nothing was accepted where nothing was entered. */
  lemma NothingAccepted(c: Config, st: State)
    requires Shape(c, st) && !st.h.inserted
    ensures Accept !in st.s.channel && AcceptMsg !in st.up && !Moving(st.s.pc) && !Succeeding(st.s) && !st.h.accepted
  {
    hide Single, Closed, Matches, SenderOk, Moving, Succeeding;
  }

  lemma DeclineStarts(c: Config, st: State, ok: bool)
    requires Shape(c, st) && Registered(st.s, st.h.lost) && ReceiverEnabled(st, SendDecline(ok))
    ensures NoComing(ReceiverApply(st, SendDecline(ok)))
  {
    assert !st.h.inserted;
    NothingAccepted(c, st);
    if !st.h.lost { WaitsOrFails(st); }
    hide Single, Closed, Matches, Offers, Opened, SenderOk;
    if ok { assert ReceiverApply(st, SendDecline(ok)).up[|st.up|] == DeclineMsg; }
  }

  /** Where a sender can be whose offer has arrived and was not accepted. */
  lemma WaitsOrFails(st: State)
    requires !Moving(st.s.pc) && !Succeeding(st.s) && Registered(st.s, st.h.lost) && Single(st) && st.r.pc.Found?
    requires |st.s.reports| <= 1 && !st.h.lost
    ensures st.s.pc.Awaiting? || st.s.pc.Aborting? || st.s.pc == Finishing(false) || st.s.pc == Reporting(false)
            || (st.s.pc.Over? && st.s.reports == [false])
  {
    hide Offers;
    if st.s.pc.Over? {
      var b := st.s.reports[0];
      assert st.s.reports == [b];
      assert !b;
    }
  }

  lemma NoComingSender(c: Config, st: State, a: Action)
    requires Shape(c, st) && NoComing(st) && BySender(a) && SenderEnabled(st, a)
    ensures NoComing(SenderApply(st, a))
  {
    NothingAccepted(c, st);
    hide Single, Opened, Closed, Matches, Offers;
    if a.Decide? {
      assert st.s.channel[0] in st.s.channel;
    }
  }

  lemma NoComingReceiver(c: Config, st: State, a: Action)
    requires Shape(c, st) && NoComing(st) && ByReceiver(a) && ReceiverEnabled(st, a)
    ensures NoComing(ReceiverApply(st, a))
  {
    hide Opened, Closed, Matches, Offers, SenderOk;
  }

  lemma NoComingLink(c: Config, st: State, a: Action)
    requires Shape(c, st) && Registered(st.s, st.h.lost) && NoComing(st) && !BySender(a) && !ByReceiver(a) && LinkEnabled(st, a)
    ensures NoComing(LinkApply(c, st, a))
  {
    NothingAccepted(c, st);
    hide Opened, Closed, Matches, SenderOk, TakeChunk, Complete;
    match a
    case HearUp =>
      assert st.up == [st.up[0]] + st.up[1..];
      assert LinkApply(c, st, a).r == st.r;
    case HearDown(ok) => NoOfferLeft(st, ok);
    case CancelOut =>
    case Cut(_, _) =>
  }

  /** What still comes down the link finds nothing to act on. */
  lemma NoOfferLeft(st: State, ok: bool)
    requires Single(st) && Declining(st.r) && LinkEnabled(st, HearDown(ok)) && !st.h.inserted
    requires st.r.active.Some? ==> st.h.inserted
    ensures st.r.active.None? && !st.down[0].OfferMsg?
  {
    assert Offers(st.down) == (if st.down[0].OfferMsg? then 1 else 0) + Offers(st.down[1..]);
  }

  lemma StepNoComing(c: Config, st: State, a: Action)
    requires Shape(c, st) && Registered(st.s, st.h.lost) && NoComing(st) && Enabled(st, a)
    ensures NoComing(Apply(c, st, a))
  {
    hide Shape, Registered, NoComing, BySender, ByReceiver, SenderApply, SenderEnabled, ReceiverApply, ReceiverEnabled, LinkApply,
      LinkEnabled;
    if BySender(a) { NoComingSender(c, st, a); } else if ByReceiver(a) { NoComingReceiver(c, st, a); } else { NoComingLink(c, st, a); }
  }

  lemma {:induction false} DeclineReaches(c: Config, path: seq<State>, acts: seq<Action>, k: nat, i: nat)
    requires IsRun(c, path, acts) && k < i <= |acts| && acts[k].SendDecline?
    ensures NoComing(path[i])
  {
    hide Enabled, Apply, NoComing, Registered, Shape, Init;
    if i == k + 1 {
      RunShape(c, path, acts, k);
      RunRegistered(c, path, acts, k);
      DeclineStep(c, path[k], acts[k]);
    } else {
      DeclineReaches(c, path, acts, k, i - 1);
      RunShape(c, path, acts, i - 1);
      RunRegistered(c, path, acts, i - 1);
      StepNoComing(c, path[i - 1], acts[i - 1]);
    }
  }

  lemma DeclineStep(c: Config, st: State, a: Action)
    requires Shape(c, st) && Registered(st.s, st.h.lost) && Enabled(st, a) && a.SendDecline?
    ensures NoComing(Apply(c, st, a))
  {
    hide Shape, Registered, NoComing;
    DeclineStarts(c, st, a.ok);
  }

  // ----- where a Decline, and a sender that gave up, come from -----

  ghost predicate TimedOut(acts: seq<Action>, i: nat) { exists k :: 0 <= k < i && k < |acts| && acts[k].Timeout? }

  ghost predicate Declined(acts: seq<Action>, i: nat) { exists k :: 0 <= k < i && k < |acts| && acts[k].SendDecline? }

  predicate DeclineAround(st: State) { DeclineMsg in st.up || (Decline in st.s.channel && !st.h.lost) }

  /** The sender has stopped waiting without an Accept. */
  predicate GivenUp(st: State) {
    !st.s.pc.Fresh? && !st.s.pc.Offering? && !st.s.pc.Awaiting? && !st.h.accepted && !st.h.lost
  }

  lemma AroundSender(st: State, a: Action)
    requires BySender(a) && SenderEnabled(st, a)
    ensures DeclineAround(SenderApply(st, a)) ==> DeclineAround(st)
    ensures GivenUp(SenderApply(st, a)) ==> GivenUp(st) || a.Timeout? || Decline in st.s.channel
  {
    SenderEffects(st, a);
    SenderListens(st, a);
    if a.Decide? { assert st.s.channel[0] in st.s.channel; }
  }

  lemma ReceiverKeepsAccepted(st: State, a: Action)
    requires ByReceiver(a) && ReceiverEnabled(st, a)
    ensures ReceiverApply(st, a).h.accepted == st.h.accepted
  {
    hide ReceiverEnabled, Answering, Begin;
    match a
    case SendAccept(_) =>
    case SendDecline(_) =>
    case SendStop(_) =>
    case Insert =>
    case _ =>
  }

  lemma AroundReceiver(st: State, a: Action)
    requires ByReceiver(a) && ReceiverEnabled(st, a) && !a.SendDecline?
    ensures DeclineAround(ReceiverApply(st, a)) ==> DeclineAround(st)
    ensures GivenUp(ReceiverApply(st, a)) ==> GivenUp(st)
  {
    LostStays(st, a);
    ReceiverKeepsAccepted(st, a);
    UpGains(st, a);
    hide ReceiverApply, ReceiverEnabled, ByReceiver;
  }

  lemma UpGains(st: State, a: Action)
    requires ByReceiver(a) && ReceiverEnabled(st, a) && !a.SendDecline?
    ensures DeclineMsg in ReceiverApply(st, a).up ==> DeclineMsg in st.up
  {
    hide Answering, Begin;
  }

  lemma AroundLink(c: Config, st: State, a: Action)
    requires !BySender(a) && !ByReceiver(a) && LinkEnabled(st, a)
    ensures DeclineAround(LinkApply(c, st, a)) ==> DeclineAround(st)
    ensures GivenUp(LinkApply(c, st, a)) ==> GivenUp(st)
  {
    hide Hear;
    if a.HearUp? { assert st.up == [st.up[0]] + st.up[1..]; }
  }

  lemma StepAround(c: Config, st: State, a: Action)
    requires Enabled(st, a) && !a.SendDecline?
    ensures DeclineAround(Apply(c, st, a)) ==> DeclineAround(st)
    ensures GivenUp(Apply(c, st, a)) ==> GivenUp(st) || a.Timeout? || Decline in st.s.channel
  {
    hide DeclineAround, GivenUp, BySender, ByReceiver, SenderApply, SenderEnabled, ReceiverApply, ReceiverEnabled, LinkApply, LinkEnabled;
    if BySender(a) { AroundSender(st, a); } else if ByReceiver(a) { AroundReceiver(st, a); } else { AroundLink(c, st, a); }
  }

  /** With nothing lost a Decline comes from the receiver, and nobody else makes a sender give up. */
  lemma {:induction false} ComesFrom(c: Config, path: seq<State>, acts: seq<Action>, i: nat)
    requires IsRun(c, path, acts) && i <= |acts|
    ensures DeclineAround(path[i]) ==> Declined(acts, i)
    ensures GivenUp(path[i]) ==> TimedOut(acts, i) || Declined(acts, i)
  {
    hide Enabled, Apply, Init, GivenUp;
    if i == 0 {
      InitAround(c);
    } else {
      var st, a := path[i - 1], acts[i - 1];
      ComesFrom(c, path, acts, i - 1);
      if a.SendDecline? { assert Declined(acts, i); } else { StepAround(c, st, a); LostEarlier(c, st, a); }
      if k :| 0 <= k < i - 1 && k < |acts| && acts[k].SendDecline? { assert Declined(acts, i); }
      if k :| 0 <= k < i - 1 && k < |acts| && acts[k].Timeout? { assert TimedOut(acts, i); }
      if a.Timeout? { assert TimedOut(acts, i); }
    }
  }

  /** A loss is never forgotten. */
  lemma LostEarlier(c: Config, st: State, a: Action)
    requires Enabled(st, a)
    ensures st.h.lost ==> Apply(c, st, a).h.lost
    ensures GivenUp(Apply(c, st, a)) ==> !st.h.lost
  {
    hide Hear;
    if BySender(a) { SenderEffects(st, a); } else if ByReceiver(a) { LostStays(st, a); }
    hide SenderApply, ReceiverApply;
  }

  lemma InitAround(c: Config)
    ensures !DeclineAround(Init(c)) && !GivenUp(Init(c))
  {}

  /** With nothing lost a receiver that has taken the declining branch has sent its Decline. */
  lemma {:induction false} DeclinedSaid(c: Config, path: seq<State>, acts: seq<Action>, i: nat)
    requires IsRun(c, path, acts) && i <= |acts| && path[i].r.pc.Declined? && !path[i].h.lost
    ensures Declined(acts, i) && NoComing(path[i])
  {
    hide Enabled, Apply, Init, NoComing, Gap;
    assert i > 0 by { NotDeclined(c); }
    var st, a := path[i - 1], acts[i - 1];
    RunGap(c, path, acts, i - 1);
    LostEarlier(c, st, a);
    DeclinedBy(c, st, a);
    if a.SendDecline? {
      assert Declined(acts, i);
    } else {
      DeclinedSaid(c, path, acts, i - 1);
      var x :| 0 <= x < i - 1 && x < |acts| && acts[x].SendDecline?;
      assert 0 <= x < i;
    }
    var k :| 0 <= k < i && k < |acts| && acts[k].SendDecline?;
    DeclineReaches(c, path, acts, k, i);
  }

  lemma NotDeclined(c: Config)
    ensures !Init(c).r.pc.Declined?
  {}

  lemma DeclinedBy(c: Config, st: State, a: Action)
    requires Gap(st) && Enabled(st, a) && Apply(c, st, a).r.pc.Declined? && !Apply(c, st, a).h.lost
    ensures st.r.pc.Declined? || a.SendDecline?
  {
    assert !st.r.bond.Linked? ==> st.h.lost;
    hide Gap, TakeChunk, Complete, Begin;
    LostEarlier(c, st, a);
    if BySender(a) { SenderEffects(st, a); }
    hide SenderApply, SenderEnabled;
  }

  // ----- what the answers come to -----

  /** A declined offer is a failed transfer on both sides: with nothing lost, nothing on the way and
      nothing unread, the sender is not waiting; when it is through it has reported failure, and so has
      the receiver; and unless it timed out first it is through but for that. */
  lemma DeclinedFails(c: Config, path: seq<State>, acts: seq<Action>, k: nat, i: nat)
    requires IsRun(c, path, acts) && k < i <= |acts| && acts[k].SendDecline?
    requires !path[i].h.lost && path[i].up == [] && path[i].s.channel == []
    ensures var st := path[i];
            && !st.s.pc.Awaiting?
            && (st.s.pc.Over? ==> st.s.reports == [false])
            && (st.r.pc.Declined? || st.r.reports == [false])
            && (!TimedOut(acts, i) ==> st.s.pc == Finishing(false) || st.s.pc == Reporting(false) || st.s.pc.Over?)
  {
    DeclineReaches(c, path, acts, k, i);
    RunShape(c, path, acts, i);
    NothingAccepted(c, path[i]);
    if path[i].s.pc.Aborting? { AbortTimedOut(c, path, acts, i); }
  }

  lemma {:induction false} AbortTimedOut(c: Config, path: seq<State>, acts: seq<Action>, i: nat)
    requires IsRun(c, path, acts) && i <= |acts| && path[i].s.pc.Aborting? && !path[i].h.accepted
    ensures TimedOut(acts, i)
  {
    hide Enabled, Apply, Init, Shape;
    assert i > 0 by { InitWaits(c); }
    var st, a := path[i - 1], acts[i - 1];
    RunShape(c, path, acts, i - 1);
    AbortStep(c, st, a);
    if !a.Timeout? {
      AbortTimedOut(c, path, acts, i - 1);
      var k :| 0 <= k < i - 1 && k < |acts| && acts[k].Timeout?;
      assert 0 <= k < i;
    }
  }

  lemma InitWaits(c: Config)
    ensures Init(c).s.pc.Fresh?
  {}

  lemma AbortStep(c: Config, st: State, a: Action)
    requires Shape(c, st) && Enabled(st, a) && Apply(c, st, a).s.pc.Aborting? && !Apply(c, st, a).h.accepted
    ensures a.Timeout? || (st.s.pc.Aborting? && !st.h.accepted)
  {
    hide Single, Closed, Matches, SenderOk, Hear, TakeChunk, Complete;
    if ByReceiver(a) { LostStays(st, a); ReceiverKeepsAccepted(st, a); }
  }

  /** The receiver has entered the transfer, so it is no longer ahead of it. */
  lemma EnteredOnce(c: Config, st: State)
    requires Shape(c, st) && st.h.inserted
    ensures !st.s.pc.Fresh? && !st.s.pc.Offering?
  {
    hide Offers, Closed, Matches, SenderOk;
  }

  /** An Accept on its way to a sender that waits. */
  predicate YesComing(st: State) { !st.h.lost && st.s.pc.Awaiting? ==> AcceptMsg in st.up || Accept in st.s.channel }

  lemma YesSender(st: State, a: Action)
    requires YesComing(st) && !st.s.pc.Offering? && BySender(a) && SenderEnabled(st, a)
    ensures YesComing(SenderApply(st, a))
  {}

  lemma YesReceiver(st: State, a: Action)
    requires (YesComing(st) || a.SendAccept?) && ByReceiver(a) && ReceiverEnabled(st, a)
    ensures YesComing(ReceiverApply(st, a))
  {
    hide Answering, Begin;
    if a.SendAccept? && a.ok { assert ReceiverApply(st, a).up[|st.up|] == AcceptMsg; }
  }

  lemma YesLink(c: Config, st: State, a: Action)
    requires YesComing(st) && Registered(st.s, st.h.lost) && !BySender(a) && !ByReceiver(a) && LinkEnabled(st, a)
    ensures YesComing(LinkApply(c, st, a))
  {
    hide Hear;
    if a.HearUp? { assert st.up == [st.up[0]] + st.up[1..]; }
  }

  lemma StepYes(c: Config, st: State, a: Action)
    requires Shape(c, st) && Registered(st.s, st.h.lost) && st.h.inserted && Enabled(st, a) && (YesComing(st) || a.SendAccept?)
    ensures YesComing(Apply(c, st, a))
  {
    EnteredOnce(c, st);
    hide Shape, Registered, YesComing, ByReceiver, SenderApply, ReceiverApply, LinkApply, SenderEnabled, ReceiverEnabled, LinkEnabled;
    if BySender(a) { YesSender(st, a); } else if ByReceiver(a) { YesReceiver(st, a); } else { YesLink(c, st, a); }
  }

  lemma AcceptEntered(c: Config, st: State, a: Action)
    requires Shape(c, st) && Enabled(st, a) && a.SendAccept?
    ensures st.h.inserted
  {
    hide Single, Closed, Matches, SenderOk;
  }

  lemma EnteredStays(c: Config, st: State, a: Action)
    requires Enabled(st, a) && st.h.inserted
    ensures Apply(c, st, a).h.inserted
  {
    hide Hear;
    if BySender(a) { SenderEffects(st, a); } else if ByReceiver(a) { EnteredReceiver(st, a); }
    hide SenderApply, ReceiverApply;
  }

  lemma EnteredReceiver(st: State, a: Action)
    requires ByReceiver(a) && ReceiverEnabled(st, a) && st.h.inserted
    ensures ReceiverApply(st, a).h.inserted
  {
    hide ReceiverEnabled, Answering, Begin;
    match a
    case SendAccept(_) =>
    case SendDecline(_) =>
    case SendStop(_) =>
    case _ =>
  }

  /** After the receiver's Accept, with nothing lost: the sender is waiting with the Accept on its way or
      unread, or it has read it and opened the file, or it had timed out. */
  lemma {:induction false} AcceptReaches(c: Config, path: seq<State>, acts: seq<Action>, k: nat, i: nat)
    requires IsRun(c, path, acts) && k < i <= |acts| && acts[k].SendAccept?
    ensures path[i].h.inserted
    ensures !path[i].h.lost ==>
              if path[i].s.pc.Awaiting? then AcceptMsg in path[i].up || Accept in path[i].s.channel
              else path[i].h.accepted || TimedOut(acts, i)
  {
    AcceptComing(c, path, acts, k, i);
    RunShape(c, path, acts, i);
    EnteredOnce(c, path[i]);
    ComesFrom(c, path, acts, i);
    if x :| 0 <= x < i && x < |acts| && acts[x].SendDecline? { DeclineReaches(c, path, acts, x, i); }
  }

  lemma {:induction false} AcceptComing(c: Config, path: seq<State>, acts: seq<Action>, k: nat, i: nat)
    requires IsRun(c, path, acts) && k < i <= |acts| && acts[k].SendAccept?
    ensures path[i].h.inserted && YesComing(path[i])
  {
    hide Enabled, Apply, Init, YesComing, Shape, Registered;
    var st, a := path[i - 1], acts[i - 1];
    RunShape(c, path, acts, i - 1);
    RunRegistered(c, path, acts, i - 1);
    if i == k + 1 { AcceptEntered(c, st, a); } else { AcceptComing(c, path, acts, k, i - 1); }
    EnteredStays(c, st, a);
    StepYes(c, st, a);
  }

  // ----- the recipient's answer -----

  /** The recipient has been asked, and has said yes, or no. */
  ghost predicate Answered(acts: seq<Action>, i: nat, yes: bool) { exists k :: 0 <= k < i && k < |acts| && acts[k] == Respond(yes) }

  /** The receiver acts on that answer, or has. */
  predicate Follows(st: State, yes: bool) {
    || ((st.r.pc.Taken? || st.r.pc.Found?) && st.r.pc.accept == yes)
    || (if yes then st.r.pc.Inserted? || st.h.inserted || st.r.active.Some? else st.r.pc.Declined?)
  }

  lemma FollowsReceiver(st: State, a: Action, yes: bool)
    requires ByReceiver(a) && ReceiverEnabled(st, a) && a != Respond(yes) && Follows(ReceiverApply(st, a), yes)
    ensures Follows(st, yes)
  {
    hide Reply, Begin, Answering;
    if a.SendAccept? || a.SendDecline? || a.SendStop? { ReplyKeeps(st, a.ok); }
  }

  lemma ReplyKeeps(st: State, ok: bool)
    ensures forall m :: Reply(st, ok, m).r == st.r && Reply(st, ok, m).h.inserted == st.h.inserted
  {}

  lemma FollowsRest(c: Config, st: State, a: Action, yes: bool)
    requires !ByReceiver(a) && Enabled(st, a) && Follows(Apply(c, st, a), yes)
    ensures Follows(st, yes)
  {
    if BySender(a) { SenderEffects(st, a); }
    hide SenderApply, SenderEnabled, TakeChunk, Complete;
  }

  lemma StepFollows(c: Config, st: State, a: Action, yes: bool)
    requires Enabled(st, a) && a != Respond(yes) && Follows(Apply(c, st, a), yes)
    ensures Follows(st, yes)
  {
    hide Follows, SenderApply, SenderEnabled, ReceiverApply, ReceiverEnabled, LinkApply, LinkEnabled;
    if ByReceiver(a) { FollowsReceiver(st, a, yes); } else { FollowsRest(c, st, a, yes); }
  }

  /** Nothing is accepted, and no file written, unless the recipient has said yes; nothing is declined
      unless they have said no. */
  lemma {:induction false} OnlyAsAnswered(c: Config, path: seq<State>, acts: seq<Action>, i: nat, yes: bool)
    requires IsRun(c, path, acts) && i <= |acts| && Follows(path[i], yes)
    ensures Answered(acts, i, yes)
  {
    hide Enabled, Apply, Follows;
    assert i > 0 by { NotAsked(c, yes); }
    if acts[i - 1] == Respond(yes) {
      assert Answered(acts, i, yes);
    } else {
      StepFollows(c, path[i - 1], acts[i - 1], yes);
      OnlyAsAnswered(c, path, acts, i - 1, yes);
      var k :| 0 <= k < i - 1 && k < |acts| && acts[k] == Respond(yes);
      assert 0 <= k < i;
    }
  }

  lemma NotAsked(c: Config, yes: bool)
    ensures !Follows(Init(c), yes)
  {}

  /** A No is being acted on, or reported as a failure. */
  predicate SaysNo(r: Receiver) { ((r.pc.Taken? || r.pc.Found?) && !r.pc.accept) || r.pc.Declined? || false in r.reports }

  lemma StepSaysNo(c: Config, st: State, a: Action)
    requires Enabled(st, a) && (SaysNo(st.r) || a == Respond(false))
    ensures SaysNo(Apply(c, st, a).r)
  {
    if BySender(a) { SenderEffects(st, a); }
    hide Hear, Note, SenderApply, SenderEnabled, Begin, Answering;
    if a.HearDown? { HearKeeps(c, st, a.ok); }
    if a.ReportDecline? { assert Apply(c, st, a).r.reports[|st.r.reports|] == false; }
  }

  lemma HearKeeps(c: Config, st: State, ok: bool)
    requires LinkEnabled(st, HearDown(ok))
    ensures var r := LinkApply(c, st, HearDown(ok)).r; r.pc == st.r.pc && r.reports == st.r.reports
  {}

  /** Whoever declines is told that the transfer failed, whether or not the sender is still there. */
  lemma {:induction false} NoIsReported(c: Config, path: seq<State>, acts: seq<Action>, k: nat, i: nat)
    requires IsRun(c, path, acts) && k < i <= |acts| && acts[k] == Respond(false)
    ensures SaysNo(path[i].r)
  {
    hide Enabled, Apply, SaysNo;
    if k < i - 1 { NoIsReported(c, path, acts, k, i - 1); }
    StepSaysNo(c, path[i - 1], acts[i - 1]);
  }

  // ----- how the sender ends -----

  /** The sender is through with verdict `ok`: about to leave the table, to report, or reported. */
  predicate Through(s: Sender, ok: bool) {
    s.pc == Finishing(ok) || s.pc == Reporting(ok) || (s.pc.Over? && s.reports == [ok])
  }

  /** The step ends the sending, as a success or not: the end of the file has been announced; or the offer
      or a chunk could not be sent, the recipient declined, or an abort was attempted. */
  predicate Ends(st: State, a: Action, ok: bool) {
    match a
    case SendOffer(sent) => !sent && !ok
    case SendChunk(sent) => !sent && !ok
    case SendAbort(_) => !ok
    case Decide => st.s.channel != [] && st.s.channel[0].Decline? && !ok
    case SendDone(_) => ok
    case _ => false
  }

  lemma EndsThrough(st: State, a: Action, ok: bool)
    requires BySender(a) && SenderEnabled(st, a) && Ends(st, a, ok)
    ensures Through(SenderApply(st, a).s, ok)
  {}

  lemma StaysThrough(c: Config, st: State, a: Action, ok: bool)
    requires SenderOk(c, st.s) && Enabled(st, a) && Through(st.s, ok)
    ensures Through(Apply(c, st, a).s, ok)
  {
    if ByReceiver(a) { LostStays(st, a); }
    hide Post, Hear, ReceiverApply, ReceiverEnabled;
  }

  /** However the sending ends, it ends at once, and that is what is reported. */
  lemma {:induction false} EndsAtOnce(c: Config, path: seq<State>, acts: seq<Action>, k: nat, i: nat, ok: bool)
    requires IsRun(c, path, acts) && k < i <= |acts| && Ends(path[k], acts[k], ok)
    ensures Through(path[i].s, ok)
  {
    hide Enabled, Apply, Through, Ends, Shape;
    if i == k + 1 {
      EndsStep(c, path[k], acts[k], ok);
    } else {
      EndsAtOnce(c, path, acts, k, i - 1, ok);
      RunShape(c, path, acts, i - 1);
      ShapeSenderOk(c, path[i - 1]);
      StaysThrough(c, path[i - 1], acts[i - 1], ok);
    }
  }

  lemma EndsStep(c: Config, st: State, a: Action, ok: bool)
    requires Enabled(st, a) && Ends(st, a, ok)
    ensures Through(Apply(c, st, a).s, ok)
  {
    hide Through;
    EndsThrough(st, a, ok);
  }

  /** The sender gives up: nobody answered in time, the file cannot be opened, or reading it fails. */
  predicate GivesUp(a: Action) { a.Timeout? || a == OpenFile(false) || a.ReadFails? }

  /** Whoever gives up says so before it fails: it is about to send an abort, or it has tried to. */
  lemma {:induction false} GivingUpAborts(c: Config, path: seq<State>, acts: seq<Action>, k: nat, i: nat)
    requires IsRun(c, path, acts) && k < i <= |acts| && GivesUp(acts[k])
    ensures path[i].s.pc.Aborting? || exists x :: k < x < i && acts[x].SendAbort? && Through(path[i].s, false)
  {
    hide Enabled, Apply, Through, Shape;
    var st, a := path[i - 1], acts[i - 1];
    if i == k + 1 {
      GivenUpAborting(c, st, a);
    } else {
      GivingUpAborts(c, path, acts, k, i - 1);
      RunShape(c, path, acts, i - 1);
      ShapeSenderOk(c, st);
      if st.s.pc.Aborting? {
        LeavesAborting(c, st, a);
        if a.SendAbort? { assert k < i - 1 < i; }
      } else {
        var x :| k < x < i - 1 && acts[x].SendAbort? && Through(st.s, false);
        StaysThrough(c, st, a, false);
        assert k < x < i;
      }
    }
  }

  lemma GivenUpAborting(c: Config, st: State, a: Action)
    requires Enabled(st, a) && GivesUp(a)
    ensures Apply(c, st, a).s.pc.Aborting?
  {}

  lemma LeavesAborting(c: Config, st: State, a: Action)
    requires Enabled(st, a) && st.s.pc.Aborting?
    ensures if a.SendAbort? then Through(Apply(c, st, a).s, false) else Apply(c, st, a).s.pc.Aborting?
  {
    if ByReceiver(a) { LostStays(st, a); }
    hide Post, Hear, ReceiverApply, ReceiverEnabled;
  }

  // ----- what else the sender is told -----

  /** A message from the receiver stays on its way until it is heard, or the link breaks. */
  lemma UpKept(c: Config, st: State, a: Action, m: Up)
    requires Enabled(st, a) && m in st.up
    ensures m in Apply(c, st, a).up || Apply(c, st, a).h.lost || (a.HearUp? && st.up[0] == m)
  {
    hide Hear;
    if BySender(a) { SenderEffects(st, a); } else if ByReceiver(a) { UpStays(st, a, m); }
    else if a.HearUp? { assert st.up == [st.up[0]] + st.up[1..]; }
    hide SenderApply, ReceiverApply;
  }

  lemma UpStays(st: State, a: Action, m: Up)
    requires ByReceiver(a) && ReceiverEnabled(st, a) && m in st.up
    ensures m in ReceiverApply(st, a).up
  {
    hide ReceiverEnabled, Answering, Begin;
    match a
    case SendAccept(_) =>
    case SendDecline(_) =>
    case SendStop(_) =>
    case _ =>
  }

  /** A receiver whose entry a rejected chunk has ended goes on to say so. */
  lemma {:induction false} DropTells(c: Config, path: seq<State>, acts: seq<Action>, k: nat, i: nat)
    requires IsRun(c, path, acts) && k < i <= |acts| && acts[k].DropActive?
    ensures path[i].r.reader.Stopping? || exists x :: k < x < i && acts[x].SendStop?
  {
    hide Enabled, Apply;
    var st, a := path[i - 1], acts[i - 1];
    if i == k + 1 {
      DropStops(c, st, a);
    } else {
      DropTells(c, path, acts, k, i - 1);
      if st.r.reader.Stopping? {
        if a.SendStop? { assert k < i - 1 < i; } else { StaysStopping(c, st, a); }
      } else {
        var x :| k < x < i - 1 && acts[x].SendStop?;
        assert k < x < i;
      }
    }
  }

  lemma DropStops(c: Config, st: State, a: Action)
    requires Enabled(st, a) && a.DropActive?
    ensures Apply(c, st, a).r.reader.Stopping?
  {}

  lemma StaysStopping(c: Config, st: State, a: Action)
    requires Enabled(st, a) && st.r.reader.Stopping? && !a.SendStop?
    ensures Apply(c, st, a).r.reader.Stopping?
  {
    if BySender(a) { SenderEffects(st, a); }
    hide Hear, Note, SenderApply, SenderEnabled, Reply, Begin, Answering;
  }

  /** A receiver that has given a transfer up says so: its abort is on its way or has been heard. */
  lemma {:induction false} StopReaches(c: Config, path: seq<State>, acts: seq<Action>, k: nat, i: nat)
    requires IsRun(c, path, acts) && k < i <= |acts| && acts[k].SendStop? && !path[i].h.lost
    ensures StopMsg in path[i].up || exists x :: k < x < i && acts[x].HearUp? && path[x].up != [] && path[x].up[0] == StopMsg
  {
    hide Enabled, Apply, Init;
    var st, a := path[i - 1], acts[i - 1];
    LostEarlier(c, st, a);
    if i == k + 1 {
      StopSaid(c, st, a);
    } else {
      StopReaches(c, path, acts, k, i - 1);
      if StopMsg in st.up {
        UpKept(c, st, a, StopMsg);
        if StopMsg !in path[i].up { assert k < i - 1 < i && a.HearUp? && st.up[0] == StopMsg; }
      } else {
        var x :| k < x < i - 1 && acts[x].HearUp? && path[x].up != [] && path[x].up[0] == StopMsg;
        assert k < x < i;
      }
    }
  }

  lemma StopSaid(c: Config, st: State, a: Action)
    requires Enabled(st, a) && a.SendStop?
    ensures StopMsg in Apply(c, st, a).up || Apply(c, st, a).h.lost
  {
    if a.ok { assert Apply(c, st, a).up[|st.up|] == StopMsg; }
  }

  /** A registered sender whose recipient departs is not left waiting: the Decline is there to be read. */
  lemma {:induction false} DepartureReleases(c: Config, path: seq<State>, acts: seq<Action>, k: nat, i: nat)
    requires IsRun(c, path, acts) && k < i <= |acts| && acts[k].CancelOut? && path[k].s.target && path[i].s.pc.Awaiting?
    requires !path[k].s.pc.Fresh? && !path[k].s.pc.Offering?
    ensures Decline in path[i].s.channel
  {
    hide Enabled, Apply, Init, Shape;
    var st, a := path[i - 1], acts[i - 1];
    RunShape(c, path, acts, i - 1);
    if i == k + 1 {
      CancelTells(c, st, a);
    } else {
      NotYetSent(c, path, acts, k, i - 1);
      StillWaiting(c, st, a);
      DepartureReleases(c, path, acts, k, i - 1);
    }
  }

  lemma {:induction false} NotYetSent(c: Config, path: seq<State>, acts: seq<Action>, k: nat, i: nat)
    requires IsRun(c, path, acts) && k <= i <= |acts| && !path[k].s.pc.Fresh? && !path[k].s.pc.Offering?
    ensures !path[i].s.pc.Fresh? && !path[i].s.pc.Offering?
  {
    hide Enabled, Apply, Init;
    if k < i {
      NotYetSent(c, path, acts, k, i - 1);
      NoWayBack(c, path[i - 1], acts[i - 1]);
    }
  }

  lemma NoWayBack(c: Config, st: State, a: Action)
    requires Enabled(st, a) && !st.s.pc.Fresh? && !st.s.pc.Offering?
    ensures !Apply(c, st, a).s.pc.Fresh? && !Apply(c, st, a).s.pc.Offering?
  {
    if BySender(a) { SenderGoesOn(st, a); } else if ByReceiver(a) { LostStays(st, a); }
    hide Hear, SenderApply, SenderEnabled, ReceiverApply, ReceiverEnabled;
  }

  lemma SenderGoesOn(st: State, a: Action)
    requires BySender(a) && SenderEnabled(st, a) && !st.s.pc.Fresh? && !st.s.pc.Offering?
    ensures !SenderApply(st, a).s.pc.Fresh? && !SenderApply(st, a).s.pc.Offering?
  {
    match a
    case Register =>
    case SendOffer(_) =>
    case Decide =>
    case SendChunk(_) =>
    case _ =>
      hide Post;
  }

  lemma CancelTells(c: Config, st: State, a: Action)
    requires Shape(c, st) && Enabled(st, a) && a.CancelOut? && st.s.target
    ensures Decline in Apply(c, st, a).s.channel
  {
    hide Single, Opened, Closed, Matches;
    var t := Apply(c, st, a);
    assert t.s.channel[|st.s.channel|] == Decline;
  }

  lemma StillWaiting(c: Config, st: State, a: Action)
    requires Enabled(st, a) && Apply(c, st, a).s.pc.Awaiting? && !st.s.pc.Fresh? && !st.s.pc.Offering?
    ensures st.s.pc.Awaiting? && forall d | d in st.s.channel :: d in Apply(c, st, a).s.channel
  {
    hide Hear;
    if ByReceiver(a) { LostStays(st, a); }
    hide ReceiverApply;
  }

  /** Nobody times out with an answer unread, and a reader takes a message only when it is through with
      the one before and not in the middle of `peer_gone`. */
  lemma OneAtATime(c: Config, path: seq<State>, acts: seq<Action>, k: nat)
    requires IsRun(c, path, acts) && k < |acts|
    ensures acts[k].Timeout? ==> path[k].s.pc.Awaiting? && path[k].s.channel == []
    ensures acts[k].HearDown? ==> path[k].r.reader.Ready? && !path[k].r.bond.Parting?
  {
    assert Enabled(path[k], acts[k]);
    hide Apply;
  }

  // ----- nobody is stuck -----

  /** A sender that is neither over nor waiting for an answer has a step to take, and as long as the link
      is up one that sends what it has to send. */
  lemma SenderHasStep(st: State) returns (a: Action)
    requires !st.s.pc.Over? && (st.s.pc.Awaiting? ==> st.s.channel != [])
    ensures BySender(a) && SenderEnabled(st, a)
    ensures !st.dead && st.s.pc.Offering? ==> a == SendOffer(true)
    ensures !st.dead && st.s.pc.Loaded? ==> a == SendChunk(true)
    ensures !st.dead && st.s.pc.Announcing? ==> a == SendDone(true)
    ensures !st.dead && st.s.pc.Aborting? ==> a == SendAbort(true)
  {
    match st.s.pc
    case Fresh => a := Register;
    case Offering => a := SendOffer(!st.dead);
    case Awaiting => a := Decide;
    case Opening => a := OpenFile(true);
    case Streaming => a := if st.s.unread == [] then ReadEnd else ReadFile(1);
    case Loaded(_) => a := SendChunk(!st.dead);
    case Announcing => a := SendDone(!st.dead);
    case Aborting => a := SendAbort(!st.dead);
    case Finishing(_) => a := FinishOut;
    case Reporting(_) => a := ReportOut;
  }

  /** A sender that waits can always time out; what has arrived for it can be heard. */
  lemma WaitEnds(st: State)
    requires st.s.pc.Awaiting?
    ensures (SenderEnabled(st, Timeout) || SenderEnabled(st, Decide)) && (st.up != [] ==> LinkEnabled(st, HearUp))
  {}

  /** At the receiver: an offer can be answered, an answer under way goes on, a reader in the middle of
      something goes on, and otherwise takes what has arrived unless its peer is gone. */
  lemma ReceiverHasStep(st: State) returns (a: Action)
    requires st.r.offer.Some? || !st.r.pc.Idle? || !st.r.reader.Ready? || st.down != []
    ensures Enabled(st, a) && (ByReceiver(a) || a.HearDown?)
    ensures !st.dead && st.r.reader.Ready? && st.r.pc.Found? && !st.r.pc.accept ==> a == SendDecline(true)
    ensures !st.dead && st.r.reader.Ready? && st.r.pc.Inserted? ==> a == SendAccept(true)
    ensures !st.dead && st.r.reader.Stopping? ==> a == SendStop(true)
  {
    match st.r.reader {
      case Rejecting => a := DropActive;
      case Stopping => a := SendStop(!st.dead);
      case Telling(_) => a := ReportIn;
      case Ready => a := AnswerStep(st);
    }
  }

  lemma AnswerStep(st: State) returns (a: Action)
    requires st.r.reader.Ready? && (st.r.offer.Some? || !st.r.pc.Idle? || st.down != [])
    ensures Enabled(st, a) && (ByReceiver(a) || a.HearDown?)
    ensures !st.dead && st.r.pc.Found? && !st.r.pc.accept ==> a == SendDecline(true)
    ensures !st.dead && st.r.pc.Inserted? ==> a == SendAccept(true)
  {
    match st.r.pc
    case Taken(_, _) => a := LookUp;
    case Found(accept, _) => a := if accept then Insert else SendDecline(!st.dead);
    case Inserted => a := SendAccept(!st.dead);
    case Declined => a := ReportDecline;
    case Idle => a := if st.r.offer.Some? then Respond(true) else if st.r.bond.Parting? then CancelIn else HearDown(true);
  }
}
