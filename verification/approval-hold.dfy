/**
 * Approving a card: pacing decides when a message goes, never whether. A card
 * held back only by pacing is approved now and sent once the limits clear.
 */
module ApprovalHold {
  import opened Options
  import opened DailyQuota
  import opened PolicyEngine
  import opened PacingClock

  // ----------------------------------------------------------- the decision

  predicate IsExecutable(d: Decision, approved: bool) {
    d == Allow || (d == AllowWithApproval && approved)
  }

  /** Permitted work a person has to carry out. */
  predicate IsHandoff(v: Result) {
    v.decision == ManualOnly && v.gate in {Some(CapabilityMode), Some(NoConnectedAccount)}
  }

  predicate Acceptable(v: Result, allowHandoff: bool) {
    IsExecutable(v.decision, true) || (allowHandoff && IsHandoff(v))
  }

  predicate IsPacing(g: Gate) {
    g in {RateLimitDaily, RateLimitProspect, RateLimitAddress, Cooldown}
  }

  /** Some gate asked for this decision, and all that did are pacing gates. */
  predicate OnlyPacing(v: Result) {
    && (exists e :: e in v.trace && e.decision == v.decision)
    && (forall e :: e in v.trace && e.decision == v.decision ==> IsPacing(e.gate))
  }

  /** Nothing counted against any limit, and no daily cap. */
  function Unpaced(r: Request): Request {
    r.(actionsToday := 0, maxActionsPerDay := Unlimited, actionsToProspectThisWeek := 0,
       hoursSinceProspect := None, actionsToAddressThisWeek := None, hoursSinceAddress := None)
  }

  /** As if nothing had been done today. */
  function WithoutDay(r: Request): Request {
    r.(actionsToday := 0, maxActionsPerDay := Unlimited)
  }

  datatype Checked = Checked(result: Result, pacedUntil: Option<int>)

  function Recheck(r: Request, now: nat): Checked {
    Checked(Evaluate(r), PacingClearsAt(r, now))
  }

  /** A hand-off is exempt from the daily cap, so a full day is asked again without it. */
  function HandoffAware(r: Request, now: nat): Checked {
    var d := Recheck(r, now);
    if d.result.gate != Some(RateLimitDaily) then d
    else
      var withoutDay := Recheck(WithoutDay(r), now);
      if IsHandoff(withoutDay.result) then withoutDay else d
  }

  function FirstLook(r: Request, allowHandoff: bool, now: nat): Checked {
    if allowHandoff then HandoffAware(r, now) else Recheck(r, now)
  }

  /** What an email card has of what a send needs; `edited` when the person approving wrote the body. */
  datatype Readiness = Readiness(recipient: bool, recipientRefused: bool, hasDraft: bool, edited: bool)

  datatype Missing = NoAddress | AddressRefused | NoDraft

  /** The first thing missing, in this order. */
  function MissingFrom(ready: Readiness): Option<Missing> {
    if !ready.recipient then Some(NoAddress)
    else if ready.recipientRefused then Some(AddressRefused)
    else if !ready.hasDraft && !ready.edited then Some(NoDraft)
    else None
  }

  /** A first email, as opposed to a follow-up, goes out by itself once approved. */
  predicate IsFirstEmail(r: Request) {
    r.network == Email && r.action == SendEmail && !r.isFollowUp
  }

  datatype Approval =
    | Refused(result: Result)
    | NotSendable(missing: Missing)
    | Approved(result: Result, holdUntil: Option<int>, waived: bool)

  /** The policy half of the decision. */
  function Judge(r: Request, allowHandoff: bool, now: nat): (judged: Approval)
    ensures !judged.NotSendable?
  {
    var first := FirstLook(r, allowHandoff, now);
    var unpaced := Evaluate(Unpaced(r));
    if Acceptable(first.result, allowHandoff) then Approved(first.result, None, false)
    else if OnlyPacing(first.result) && Acceptable(unpaced, allowHandoff) then Approved(unpaced, first.pacedUntil, true)
    else Refused(first.result)
  }

  /** A first email the policy lets out must also have words and an address. */
  function AskedReady(judged: Approval, r: Request, ready: Readiness, allowHandoff: bool): Approval {
    if judged.Approved? && IsFirstEmail(r) && !(allowHandoff && IsHandoff(judged.result)) && MissingFrom(ready).Some?
    then NotSendable(MissingFrom(ready).value)
    else judged
  }

  function Decide(r: Request, ready: Readiness, allowHandoff: bool, now: nat): Approval {
    AskedReady(Judge(r, allowHandoff, now), r, ready, allowHandoff)
  }

  // ------------------------------------------------- the gates that remain

  function UnpacedTrace(r: Request, mode: Mode): seq<Entry> {
    StandingGates(r, mode) + ThreadGate(r) + ModeGate(r, mode)
  }

  /** The engine with its pacing gates taken out. */
  function Waived(r: Request): Result {
    var rule := DefaultRule(r.network, r.action);
    if rule.None? then UNKNOWN else Verdict(r, rule.value, UnpacedTrace(r, rule.value))
  }

  /** A weekly limit of zero for a prospect we are not answering: no count is under it. */
  predicate Stuck(r: Request) {
    !Internal(r.action) && !Answering(r) && r.maxActionsPerProspectPerWeek <= 0.0
  }

  lemma TraceSplits(r: Request, mode: Mode, e: Entry)
    ensures e in EarlyTrace(r, mode) <==> e in UnpacedTrace(r, mode) || e in PacingGates(r)
  {
    EarlyParts(r, mode, e);
    InFour(StandingGates(r, mode), [], ThreadGate(r), ModeGate(r, mode), e);
    assert StandingGates(r, mode) + [] == StandingGates(r, mode);
  }

  /** A pacing limit that fires refuses; one that does not leaves no mark. */
  lemma PacingRefusesOrVanishes(r: Request)
    requires DefaultRule(r.network, r.action).Some?
    ensures PacingGates(r) != [] ==> Evaluate(r).decision == Deny
    ensures PacingGates(r) == [] ==> Evaluate(r) == Waived(r)
  {
    var mode := DefaultRule(r.network, r.action).value;
    if PacingGates(r) == [] {
      assert EarlyTrace(r, mode) == UnpacedTrace(r, mode);
    } else {
      var e := PacingGates(r)[0];
      PacingEntries(r);
      TraceSplits(r, mode, e);
      VerdictFacts(r, mode, EarlyTrace(r, mode));
    }
  }

  /** When the other gates do not refuse, every refusal on record is a pacing one. */
  lemma RefusalsArePacing(r: Request)
    requires PacingGates(r) != [] && Waived(r).decision != Deny
    ensures OnlyPacing(Evaluate(r))
  {
    var mode := DefaultRule(r.network, r.action).value;
    var early, v := EarlyTrace(r, mode), Evaluate(r);
    PacingRefusesOrVanishes(r);
    PacingEntries(r);
    VerdictFacts(r, mode, early);
    VerdictFacts(r, mode, UnpacedTrace(r, mode));
    TraceSplits(r, mode, PacingGates(r)[0]);
    assert PacingGates(r)[0] in v.trace;
    forall e | e in v.trace && e.decision == Deny ensures IsPacing(e.gate) {
      TraceSplits(r, mode, e);
    }
  }

  /** Two requests that differ only in what has been counted. */
  predicate SameButCounts(r: Request, q: Request) {
    q == r.(actionsToday := q.actionsToday, maxActionsPerDay := q.maxActionsPerDay,
            actionsToProspectThisWeek := q.actionsToProspectThisWeek, hoursSinceProspect := q.hoursSinceProspect,
            actionsToAddressThisWeek := q.actionsToAddressThisWeek, hoursSinceAddress := q.hoursSinceAddress)
  }

  lemma SamePersonGates(r: Request, q: Request)
    requires SameButCounts(r, q)
    ensures PersonGates(q) == PersonGates(r)
  {
  }

  lemma SameCampaignGates(r: Request, q: Request)
    requires SameButCounts(r, q)
    ensures CampaignGates(q) == CampaignGates(r)
  {
  }

  lemma SameStandingGates(r: Request, q: Request, mode: Mode)
    requires SameButCounts(r, q)
    ensures StandingGates(q, mode) == StandingGates(r, mode)
  {
    SamePersonGates(r, q);
    SameCampaignGates(r, q);
    assert SwitchGates(q, mode) == SwitchGates(r, mode);
  }

  /** The other gates never look at a count. */
  lemma SameTrace(r: Request, q: Request)
    requires SameButCounts(r, q)
    ensures Waived(q) == Waived(r)
  {
    var rule := DefaultRule(r.network, r.action);
    if rule.Some? {
      var mode := rule.value;
      SameStandingGates(r, q, mode);
      SameTail(r, q, mode);
      SameVerdict(r, q, mode, UnpacedTrace(r, mode));
    }
  }

  lemma SameTail(r: Request, q: Request, mode: Mode)
    requires SameButCounts(r, q)
    ensures ThreadGate(q) == ThreadGate(r) && ModeGate(q, mode) == ModeGate(r, mode)
  {
  }

  lemma SameVerdict(r: Request, q: Request, mode: Mode, early: seq<Entry>)
    requires SameButCounts(r, q)
    ensures Verdict(q, mode, early) == Verdict(r, mode, early)
  {
  }

  lemma UnpacedGates(r: Request)
    ensures PacingGates(Unpaced(r)) == Refuse(Stuck(r), RateLimitProspect)
  {
  }

  lemma StuckStaysStuck(r: Request)
    requires Stuck(r)
    ensures PacingGates(r) != [] && PacingGates(WithoutDay(r)) != []
  {
    assert Entry(RateLimitProspect, Deny) in Refuse(true, RateLimitProspect);
  }

  // ------------------------------------------------------------ the theorems

  /** Asking again without pacing asks exactly the other gates, unless a zero limit still refuses. */
  lemma UnpacedAcceptableIff(r: Request, allowHandoff: bool)
    ensures Acceptable(Evaluate(Unpaced(r)), allowHandoff) <==> Acceptable(Waived(r), allowHandoff) && !Stuck(r)
  {
    SameTrace(r, Unpaced(r));
    UnpacedGates(r);
    if DefaultRule(r.network, r.action).Some? {
      PacingRefusesOrVanishes(Unpaced(r));
    }
  }

  /** The first look is acceptable only when the other gates are, and no limit is stuck at zero. */
  lemma FirstLookFacts(r: Request, allowHandoff: bool, now: nat)
    ensures var first := FirstLook(r, allowHandoff, now).result;
      && (Acceptable(first, allowHandoff) ==> Acceptable(Waived(r), allowHandoff) && !Stuck(r))
      && (!Acceptable(first, allowHandoff) ==> first == Evaluate(r))
  {
    AcceptableMeansOpen(r, allowHandoff);
    AcceptableMeansOpen(WithoutDay(r), true);
    SameTrace(r, WithoutDay(r));
    if Stuck(r) {
      StuckStaysStuck(r);
    }
  }

  lemma AcceptableMeansOpen(r: Request, allowHandoff: bool)
    ensures Acceptable(Evaluate(r), allowHandoff) ==> PacingGates(r) == [] && Acceptable(Waived(r), allowHandoff)
  {
    if DefaultRule(r.network, r.action).Some? {
      PacingRefusesOrVanishes(r);
    }
  }

  /** A card the unpaced engine would accept never fails the pacing-only pre-check. */
  lemma PreCheckNeverLosesACard(r: Request, allowHandoff: bool, now: nat)
    ensures var first := FirstLook(r, allowHandoff, now).result;
            !Acceptable(first, allowHandoff) && Acceptable(Evaluate(Unpaced(r)), allowHandoff) ==> OnlyPacing(first)
  {
    FirstLookFacts(r, allowHandoff, now);
    UnpacedAcceptableIff(r, allowHandoff);
    if DefaultRule(r.network, r.action).Some? && Acceptable(Waived(r), allowHandoff) && !Stuck(r) {
      PacingRefusesOrVanishes(r);
      if PacingGates(r) != [] {
        RefusalsArePacing(r);
      }
    }
  }

  lemma JudgedIff(r: Request, allowHandoff: bool, now: nat)
    ensures Judge(r, allowHandoff, now).Approved? <==> Acceptable(Waived(r), allowHandoff) && !Stuck(r)
  {
    FirstLookFacts(r, allowHandoff, now);
    UnpacedAcceptableIff(r, allowHandoff);
    if !Acceptable(FirstLook(r, allowHandoff, now).result, allowHandoff) &&
        Acceptable(Evaluate(Unpaced(r)), allowHandoff) {
      PreCheckNeverLosesACard(r, allowHandoff, now);
    }
  }

  lemma VanishedMeansWaived(r: Request)
    requires PacingGates(r) == []
    ensures Evaluate(r) == Waived(r)
  {
    if DefaultRule(r.network, r.action).Some? {
      PacingRefusesOrVanishes(r);
    }
  }

  lemma WithoutDayIsWaived(r: Request)
    requires PacingGates(WithoutDay(r)) == []
    ensures Evaluate(WithoutDay(r)) == Waived(r)
  {
    VanishedMeansWaived(WithoutDay(r));
    SameTrace(r, WithoutDay(r));
  }

  lemma AcceptableIsWaived(r: Request, q: Request, allowHandoff: bool)
    requires SameButCounts(r, q) && Acceptable(Evaluate(q), allowHandoff)
    ensures Evaluate(q) == Waived(r)
  {
    AcceptableMeansOpen(q, allowHandoff);
    VanishedMeansWaived(q);
    SameTrace(r, q);
  }

  lemma FirstIsWaived(r: Request, allowHandoff: bool, now: nat)
    requires Acceptable(FirstLook(r, allowHandoff, now).result, allowHandoff)
    ensures FirstLook(r, allowHandoff, now).result == Waived(r)
  {
    if FirstLook(r, allowHandoff, now).result == Evaluate(r) {
      AcceptableIsWaived(r, r, allowHandoff);
    } else {
      AcceptableIsWaived(r, WithoutDay(r), allowHandoff);
    }
  }

  /** Whatever way a card is accepted, the decision on record is that of the gates that remain. */
  lemma AcceptedIsWaived(r: Request, allowHandoff: bool, now: nat)
    requires Judge(r, allowHandoff, now).Approved?
    ensures Judge(r, allowHandoff, now).result == Waived(r)
  {
    if Acceptable(FirstLook(r, allowHandoff, now).result, allowHandoff) {
      FirstIsWaived(r, allowHandoff, now);
    } else {
      AcceptableIsWaived(r, Unpaced(r), allowHandoff);
    }
  }

  lemma AskedReadyIff(judged: Approval, v: Result, r: Request, ready: Readiness, allowHandoff: bool)
    requires judged.Approved? ==> judged.result == v && Acceptable(v, allowHandoff)
    ensures var asked := AskedReady(judged, r, ready, allowHandoff);
      && (asked.Approved? <==>
          judged.Approved? && (IsFirstEmail(r) && IsExecutable(v.decision, true) ==> MissingFrom(ready).None?))
      && (asked.Approved? ==> asked == judged)
  {
  }

  /** Nothing is missing, or nothing is asked: only a first email that would go out is. */
  predicate Sendable(r: Request, ready: Readiness) {
    IsFirstEmail(r) && IsExecutable(Waived(r).decision, true) ==> MissingFrom(ready).None?
  }

  lemma DecidedIsJudgedAndSendable(r: Request, ready: Readiness, allowHandoff: bool, now: nat)
    ensures Decide(r, ready, allowHandoff, now).Approved?
       <==> Judge(r, allowHandoff, now).Approved? && Sendable(r, ready)
    ensures Decide(r, ready, allowHandoff, now).Approved? ==>
              Decide(r, ready, allowHandoff, now) == Judge(r, allowHandoff, now)
  {
    if Judge(r, allowHandoff, now).Approved? {
      AcceptedIsWaived(r, allowHandoff, now);
    }
    JudgedIff(r, allowHandoff, now);
    AskedReadyIff(Judge(r, allowHandoff, now), Waived(r), r, ready, allowHandoff);
  }

  /**
   * Approving waives pacing and nothing else: a card is approved exactly when
   * the gates that are not about pacing accept it, the prospect's weekly limit
   * is not a zero that no wait can satisfy, and a first email that would go out
   * has an address that is not refused and words.
   */
  lemma ApprovedIff(r: Request, ready: Readiness, allowHandoff: bool, now: nat)
    ensures Decide(r, ready, allowHandoff, now).Approved?
       <==> Acceptable(Waived(r), allowHandoff) && !Stuck(r) && Sendable(r, ready)
  {
    JudgedIff(r, allowHandoff, now);
    DecidedIsJudgedAndSendable(r, ready, allowHandoff, now);
  }

  // --------------------------------------------- the decision, from the request

  /** What refuses a card whatever has been counted. */
  ghost predicate Barred(r: Request) {
    || DefaultRule(r.network, r.action) in {None, Some(Disabled)}
    || Capability(r.network, r.action) in r.switchedOff
    || r.personDeleted || r.personSuppressed || r.personBelievedMinor
    || (r.approvalMode == ResearchOnlyCampaign && r.action !in {Observe, RefreshResearch, ViewProfile})
    || (r.action in {Reply, Comment, Connect, SendDm, SendEmail} && NotToBeWritten(r))
    || (r.action !in {Observe, RefreshResearch, Wait, Suppress, ManualReview, CreateCrmTask} && r.budgetExhausted)
  }

  lemma AsksThree(a: seq<Entry>, b: seq<Entry>, c: seq<Entry>, asked: Decision)
    ensures Asks(a + b + c, asked) <==> Asks(a, asked) || Asks(b, asked) || Asks(c, asked)
  {
    AsksJoin(a + b, c, asked);
    AsksJoin(a, b, asked);
  }

  lemma UnpacedRefuses(r: Request, mode: Mode)
    requires DefaultRule(r.network, r.action) == Some(mode)
    ensures Asks(UnpacedTrace(r, mode), Deny) <==> Barred(r)
  {
    SwitchesRefuse(r, mode);
    PersonRefuses(r);
    CampaignRefuses(r);
    ThreadAsks(r);
    ModeAsks(r, mode);
    AsksThree(SwitchGates(r, mode), PersonGates(r), CampaignGates(r), Deny);
    AsksThree(StandingGates(r, mode), ThreadGate(r), ModeGate(r, mode), Deny);
  }

  lemma UnpacedAsks(r: Request, mode: Mode)
    requires DefaultRule(r.network, r.action) == Some(mode)
    ensures Asks(UnpacedTrace(r, mode), Deny) <==> Barred(r)
    ensures Asks(UnpacedTrace(r, mode), ManualOnly) <==> ByHand(r)
  {
    UnpacedRefuses(r, mode);
    StandingEntries(r, mode);
    ThreadEntries(r);
    ModeAsks(r, mode);
    AsksThree(StandingGates(r, mode), ThreadGate(r), ModeGate(r, mode), ManualOnly);
  }

  /** The other gates refuse what is barred, leave to a person what is theirs, and let the rest out. */
  lemma WaivedSays(r: Request)
    ensures Waived(r).decision == Deny <==> Barred(r)
    ensures IsHandoff(Waived(r)) <==> !Barred(r) && ByHand(r)
    ensures IsExecutable(Waived(r).decision, true) <==> !Barred(r) && !ByHand(r)
  {
    var rule := DefaultRule(r.network, r.action);
    if rule.Some? {
      var trace := UnpacedTrace(r, rule.value);
      UnpacedAsks(r, rule.value);
      FoldOf(trace, Barred(r), ByHand(r), Asks(trace, AllowWithApproval));
      LastWord(r, rule.value, trace);
      ByHandIsNamed(r, rule.value);
    }
  }

  lemma ByHandIsNamed(r: Request, mode: Mode)
    ensures var v := Verdict(r, mode, UnpacedTrace(r, mode));
            v.decision == ManualOnly ==> v.gate in {Some(CapabilityMode), Some(NoConnectedAccount)}
  {
    var v := Verdict(r, mode, UnpacedTrace(r, mode));
    if v.decision == ManualOnly {
      VerdictFacts(r, mode, UnpacedTrace(r, mode));
      LastGateFound(v.trace, ManualOnly);
      var e := Entry(v.gate.value, ManualOnly);
      assert e in v.trace;
      TraceSplits(r, mode, e);
      EarlyEntry(r, mode, e);
    }
  }

  /** No wait lets this be sent: a prospect it does not answer may be written to never a week. */
  ghost predicate NeverThisWeek(r: Request) {
    && r.action !in {Observe, RefreshResearch, Wait, Suppress, ManualReview, CreateCrmTask}
    && !(r.isFollowUp && r.conversationOpen) && r.maxActionsPerProspectPerWeek <= 0.0
  }

  lemma JudgeSays(r: Request, allowHandoff: bool, now: nat)
    ensures Judge(r, allowHandoff, now).Refused? <==>
            Barred(r) || (ByHand(r) && !allowHandoff) || NeverThisWeek(r)
  {
    WaivedSays(r);
    JudgedIff(r, allowHandoff, now);
  }

  lemma JudgedIsHandoff(r: Request, allowHandoff: bool, now: nat)
    requires Judge(r, allowHandoff, now).Approved?
    ensures allowHandoff && IsHandoff(Judge(r, allowHandoff, now).result) <==> ByHand(r)
  {
    WaivedSays(r);
    JudgeSays(r, allowHandoff, now);
    AcceptedIsWaived(r, allowHandoff, now);
  }

  lemma AskedSays(judged: Approval, r: Request, ready: Readiness, allowHandoff: bool, byHand: bool)
    requires !judged.NotSendable?
    requires judged.Approved? ==> ((allowHandoff && IsHandoff(judged.result)) <==> byHand)
    ensures var answer := AskedReady(judged, r, ready, allowHandoff);
            var asked := judged.Approved? && r.network == Email && r.action == SendEmail && !r.isFollowUp && !byHand;
      && (answer.Refused? <==> judged.Refused?)
      && (answer == NotSendable(NoAddress) <==> asked && !ready.recipient)
      && (answer == NotSendable(AddressRefused) <==> asked && ready.recipient && ready.recipientRefused)
      && (answer == NotSendable(NoDraft) <==>
            asked && ready.recipient && !ready.recipientRefused && !(ready.hasDraft || ready.edited))
  {
  }

  /**
   * What approving a card comes to, from the card alone: refused for what bars
   * it, for hand-off work where that is not wanted, or for a weekly limit of
   * zero; held in the queue when a first email that would go out lacks an
   * address, has one refused, or lacks words, in this order; approved otherwise,
   * whatever has been counted.
   */
  lemma DecisionSays(r: Request, ready: Readiness, allowHandoff: bool, now: nat)
    ensures var answer := Decide(r, ready, allowHandoff, now);
            var refused := Barred(r) || (ByHand(r) && !allowHandoff) || NeverThisWeek(r);
            var asked := !refused && r.network == Email && r.action == SendEmail && !r.isFollowUp && !ByHand(r);
      && (answer.Refused? <==> refused)
      && (answer == NotSendable(NoAddress) <==> asked && !ready.recipient)
      && (answer == NotSendable(AddressRefused) <==> asked && ready.recipient && ready.recipientRefused)
      && (answer == NotSendable(NoDraft) <==>
            asked && ready.recipient && !ready.recipientRefused && !(ready.hasDraft || ready.edited))
  {
    JudgeSays(r, allowHandoff, now);
    if Judge(r, allowHandoff, now).Approved? {
      JudgedIsHandoff(r, allowHandoff, now);
    }
    AskedSays(Judge(r, allowHandoff, now), r, ready, allowHandoff, ByHand(r));
  }

  const READY: Readiness := Readiness(true, false, true, false)

  /** A first email to an eligible person, in a campaign with the given weekly limit for a prospect. */
  function FirstEmail(weekly: real): Request {
    Request(Email, SendEmail, DraftAndApprove, true, false, false, false, false, 0.9, 0.85,
            0, AtMost(50.0), 0, weekly, None, None, None, None, None, false, false, false, false, false, {})
  }

  lemma NothingLeft(weekly: real)
    ensures UnpacedTrace(FirstEmail(weekly), CustomerManaged) == []
  {
  }

  lemma OnlyTheHumanIsLeft(r: Request, mode: Mode)
    requires Outbound(r.action) && r.approvalMode == DraftAndApprove
    ensures IsExecutable(Verdict(r, mode, []).decision, true)
  {
    assert [] + ApprovalGate(r, mode, Allow) == [Entry(OutboundRequiresApproval, AllowWithApproval)];
    VerdictFacts(r, mode, []);
  }

  lemma NothingElseInTheWay(weekly: real)
    ensures IsExecutable(Waived(FirstEmail(weekly)).decision, true)
  {
    NothingLeft(weekly);
    OnlyTheHumanIsLeft(FirstEmail(weekly), CustomerManaged);
  }

  lemma FirstEmailIsApprovedIff(weekly: real, now: nat)
    ensures Decide(FirstEmail(weekly), READY, true, now).Approved? <==> weekly > 0.0
  {
    NothingElseInTheWay(weekly);
    ApprovedIff(FirstEmail(weekly), READY, true, now);
  }

  /** The waiver does not reach a weekly limit of zero: refused, though pacing is all that refused it. */
  lemma ZeroWeeklyLimitIsNotWaived(now: nat)
    ensures Acceptable(Waived(FirstEmail(0.0)), true)
    ensures Decide(FirstEmail(0.0), READY, true, now).Refused? && Decide(FirstEmail(1.0), READY, true, now).Approved?
  {
    NothingElseInTheWay(0.0);
    FirstEmailIsApprovedIff(0.0, now);
    FirstEmailIsApprovedIff(1.0, now);
  }

  /** Every pacing refusal that fires is a breach of a limit the clock also looks at. */
  lemma GatesImplyBreach(r: Request)
    ensures PacingGates(r) != [] ==> AnyBreached(r)
  {
  }

  /** An approval that waived something names the time to wait for; one that waived nothing goes now. */
  lemma HoldHasATime(r: Request, ready: Readiness, allowHandoff: bool, now: nat)
    requires Decide(r, ready, allowHandoff, now).Approved?
    ensures var a := Decide(r, ready, allowHandoff, now);
      && (a.waived ==> a.holdUntil.Some? && a.holdUntil == PacingClearsAt(r, now) && a.holdUntil.value >= now)
      && (!a.waived ==> a.holdUntil.None?)
  {
    DecidedIsJudgedAndSendable(r, ready, allowHandoff, now);
    if Judge(r, allowHandoff, now).waived {
      FirstLookFacts(r, allowHandoff, now);
      UnpacedAcceptableIff(r, allowHandoff);
      if DefaultRule(r.network, r.action).Some? {
        PacingRefusesOrVanishes(r);
        GatesImplyBreach(r);
        UndefinedIffNothingBreached(r, now);
        NeverInThePast(r, now);
      }
    }
  }

  /** A limit that applies to the card and that no wait satisfies. */
  predicate NeverSatisfied(base: Request, h: History) {
    if Answering(base) then base.addressShared && h.toAddress.Some? && AddressCap(base) <= 0.0 else NeverUnder(base, h)
  }

  /** The limits that apply can all be satisfied, and a day's cap is not used up in the day that ends at the hold. */
  predicate CanGoOut(base: Request, h: History, held: int) {
    && !NeverSatisfied(base, h)
    && (base.maxActionsPerDay.AtMost? ==> CountSince(h.sent, held + 1 - DAY) as real < base.maxActionsPerDay.n)
  }

  lemma PacingGatesFire(r: Request)
    requires !Internal(r.action)
    ensures PacingGates(r) != [] <==>
            || DayFull(r)
            || (!Answering(r) && (ProspectFull(r) || ProspectCooling(r)))
            || ((!Answering(r) || r.addressShared) && (AddressFull(r) || AddressCooling(r)))
  {
    assert |PacingGates(r)| ==
           |Refuse(DayFull(r), RateLimitDaily)| + |Refuse(!Answering(r) && ProspectFull(r), RateLimitProspect)|
           + |Refuse(!Answering(r) && ProspectCooling(r), Cooldown)|
           + |if Answering(r) && !r.addressShared then [] else AddressLimits(r)|;
  }

  /** After the answer only the day and a limit that is never satisfied are left to refuse. */
  lemma OnlyTheDayRefuses(base: Request, h: History, now: nat, at: int)
    requires Recorded(h, now) && AfterAnswer(base, h, now, at) && !Internal(base.action)
    ensures PacingGates(RequestAt(base, h, at)) != [] <==> DayFull(RequestAt(base, h, at)) || NeverSatisfied(base, h)
  {
    LaterThanEach(RequestAt(base, h, now), now, at);
    ProspectRests(base, h, now, at);
    ProspectWeekClears(base, h, now, at);
    AddressRests(base, h, now, at);
    AddressWeekClears(base, h, now, at);
    PacingGatesFire(RequestAt(base, h, at));
  }

  /** From the moment a card's other gates accept it, only pacing decides whether it passes. */
  lemma AcceptableUnlessPaced(r: Request, q: Request, allowHandoff: bool)
    requires SameButCounts(r, q) && Acceptable(Waived(r), allowHandoff)
    ensures Acceptable(Evaluate(q), allowHandoff) <==> PacingGates(q) == []
  {
    SameTrace(r, q);
    if DefaultRule(r.network, r.action).Some? {
      PacingRefusesOrVanishes(q);
    }
  }

  lemma PassesOnceClear(base: Request, h: History, allowHandoff: bool, now: nat, held: int, t: int)
    requires Recorded(h, now) && !Internal(base.action) && held >= now && t > held
    requires PacingClearsAt(RequestAt(base, h, now), now) == Some(held)
    requires Acceptable(Waived(RequestAt(base, h, now)), allowHandoff)
    ensures Acceptable(Evaluate(RequestAt(base, h, t)), allowHandoff)
       <==> !DayFull(RequestAt(base, h, t)) && !NeverSatisfied(base, h)
  {
    AcceptableUnlessPaced(RequestAt(base, h, now), RequestAt(base, h, t), allowHandoff);
    OnlyTheDayRefuses(base, h, now, t);
  }

  lemma PassesWhenItCan(base: Request, h: History, allowHandoff: bool, now: nat, held: int, t: int)
    requires Recorded(h, now) && !Internal(base.action) && held >= now && t > held
    requires PacingClearsAt(RequestAt(base, h, now), now) == Some(held)
    requires Acceptable(Waived(RequestAt(base, h, now)), allowHandoff) && CanGoOut(base, h, held)
    ensures Acceptable(Evaluate(RequestAt(base, h, t)), allowHandoff)
  {
    PassesOnceClear(base, h, allowHandoff, now, held, t);
    DayStaysOpen(base, h, held + 1, t);
  }

  lemma RefusedWhenItCannot(base: Request, h: History, allowHandoff: bool, now: nat, held: int)
    requires Recorded(h, now) && !Internal(base.action) && held >= now
    requires PacingClearsAt(RequestAt(base, h, now), now) == Some(held)
    requires Acceptable(Waived(RequestAt(base, h, now)), allowHandoff) && !CanGoOut(base, h, held)
    ensures !Acceptable(Evaluate(RequestAt(base, h, held + 1)), allowHandoff)
  {
    PassesOnceClear(base, h, allowHandoff, now, held, held + 1);
  }

  /**
   * From approval to sending: a card held to a time, an answer on an open
   * thread included, passes the engine outright at every later moment, if
   * nothing more is recorded, exactly when the limits that apply to it can be
   * satisfied and the day's cap is not used up in the day that ends at the hold.
   */
  lemma HeldCardGoesOutIff(base: Request, h: History, ready: Readiness, allowHandoff: bool, now: nat)
    requires Recorded(h, now)
    ensures var approval := Decide(RequestAt(base, h, now), ready, allowHandoff, now);
      approval.Approved? && approval.waived ==>
        && approval.holdUntil.Some?
        && ((forall t :: t > approval.holdUntil.value ==> Acceptable(Evaluate(RequestAt(base, h, t)), allowHandoff))
            <==> CanGoOut(base, h, approval.holdUntil.value))
  {
    var r := RequestAt(base, h, now);
    var approval := Decide(r, ready, allowHandoff, now);
    if approval.Approved? && approval.waived {
      DecidedIsJudgedAndSendable(r, ready, allowHandoff, now);
      JudgedIff(r, allowHandoff, now);
      HoldHasATime(r, ready, allowHandoff, now);
      WaivedMeansPaced(r, allowHandoff, now);
      var held := approval.holdUntil.value;
      if CanGoOut(base, h, held) {
        forall t | t > held ensures Acceptable(Evaluate(RequestAt(base, h, t)), allowHandoff) {
          PassesWhenItCan(base, h, allowHandoff, now, held, t);
        }
      } else {
        RefusedWhenItCannot(base, h, allowHandoff, now, held);
      }
    }
  }

  lemma WaivedMeansPaced(r: Request, allowHandoff: bool, now: nat)
    requires Judge(r, allowHandoff, now).Approved? && Judge(r, allowHandoff, now).waived
    ensures !Internal(r.action)
  {
    JudgedIff(r, allowHandoff, now);
    FirstLookFacts(r, allowHandoff, now);
    AcceptableUnlessPaced(r, r, allowHandoff);
  }

  // -------------------------------------------------------------- the dry run

  /** What a preview of a bulk approval says of a card. */
  datatype Preview = WouldApprove | WouldHandOff | WouldHold

  /** A preview takes the first look and never asks again without pacing. */
  function DryRun(r: Request, now: nat): Preview {
    var v := FirstLook(r, true, now).result;
    if IsExecutable(v.decision, true) then WouldApprove else if IsHandoff(v) then WouldHandOff else WouldHold
  }

  /** Hand-off work that nothing but the day's cap holds back. */
  predicate HandoffPastTheDay(r: Request) {
    IsHandoff(Waived(r)) && PacingGates(WithoutDay(r)) == []
  }

  lemma OnlyTheDayFires(r: Request, e: Entry)
    requires PacingGates(WithoutDay(r)) == [] && e in PacingGates(r)
    ensures e == Entry(RateLimitDaily, Deny)
  {
    if !Internal(r.action) {
      PacingGatesFire(WithoutDay(r));
    }
  }

  /** Then the day is the gate the engine names. */
  lemma TheDayIsNamed(r: Request)
    requires HandoffPastTheDay(r) && PacingGates(r) != []
    ensures Evaluate(r).gate == Some(RateLimitDaily)
  {
    var mode := DefaultRule(r.network, r.action).value;
    var v := Evaluate(r);
    PacingRefusesOrVanishes(r);
    EveryDecisionIsExplained(r);
    VerdictFacts(r, mode, EarlyTrace(r, mode));
    VerdictFacts(r, mode, UnpacedTrace(r, mode));
    var e := Entry(v.gate.value, Deny);
    TraceSplits(r, mode, e);
    if e in PacingGates(r) {
      OnlyTheDayFires(r, e);
    }
  }

  lemma FirstLookPastTheDay(r: Request, now: nat)
    requires PacingGates(r) != [] && HandoffPastTheDay(r)
    ensures Acceptable(FirstLook(r, true, now).result, true)
  {
    TheDayIsNamed(r);
    WithoutDayIsWaived(r);
  }

  lemma AcceptedWhilePaced(r: Request, now: nat)
    requires PacingGates(r) != [] && Acceptable(FirstLook(r, true, now).result, true)
    ensures HandoffPastTheDay(r)
  {
    AcceptableMeansOpen(r, true);
    assert IsHandoff(Evaluate(WithoutDay(r)));
    AcceptableMeansOpen(WithoutDay(r), true);
    WithoutDayIsWaived(r);
  }

  /** The first look with hand-offs allowed, told by the gates. */
  lemma FirstLookIff(r: Request, now: nat)
    ensures Acceptable(FirstLook(r, true, now).result, true)
       <==> Acceptable(Waived(r), true) && (PacingGates(r) == [] || HandoffPastTheDay(r))
  {
    FirstLookFacts(r, true, now);
    if PacingGates(r) == [] {
      VanishedMeansWaived(r);
    } else if HandoffPastTheDay(r) {
      FirstLookPastTheDay(r, now);
    } else if Acceptable(FirstLook(r, true, now).result, true) {
      AcceptedWhilePaced(r, now);
    }
  }

  lemma PreviewedExecutableIff(r: Request, now: nat)
    ensures DryRun(r, now) == WouldApprove <==> IsExecutable(Waived(r).decision, true) && PacingGates(r) == []
  {
    FirstLookIff(r, now);
    if Acceptable(FirstLook(r, true, now).result, true) {
      FirstIsWaived(r, true, now);
    }
  }

  /**
   * Where a preview and the press part, both ways. Previewed as held and yet
   * approved: exactly the cards whose other gates accept them, that can be sent,
   * and for which a pacing limit that can clear fires, save hand-off work held
   * by the day alone. Previewed as approved and yet not: exactly the first
   * emails nothing refuses that lack an address or words. What a preview would
   * hand off, the press does.
   */
  lemma PreviewPartsIff(r: Request, ready: Readiness, now: nat)
    ensures DryRun(r, now) == WouldHold && Decide(r, ready, true, now).Approved?
       <==> Acceptable(Waived(r), true) && !Stuck(r) && Sendable(r, ready)
            && PacingGates(r) != [] && !HandoffPastTheDay(r)
    ensures DryRun(r, now) == WouldApprove && !Decide(r, ready, true, now).Approved?
       <==> IsExecutable(Waived(r).decision, true) && PacingGates(r) == []
            && IsFirstEmail(r) && MissingFrom(ready).Some?
    ensures DryRun(r, now) == WouldHandOff ==>
              Decide(r, ready, true, now).Approved? && IsHandoff(Decide(r, ready, true, now).result)
  {
    ApprovedIff(r, ready, true, now);
    FirstLookIff(r, now);
    PreviewedExecutableIff(r, now);
    PassedIsNotStuck(r);
  }

  lemma PassedIsNotStuck(r: Request)
    ensures PacingGates(r) == [] ==> !Stuck(r)
  {
    if Stuck(r) {
      StuckStaysStuck(r);
    }
  }

  lemma FirstEmailIsUnpaced(weekly: real)
    requires weekly > 0.0
    ensures PacingGates(FirstEmail(weekly)) == []
  {
    PacingGatesFire(FirstEmail(weekly));
  }

  lemma UndraftedIsHeld(r: Request, now: nat)
    requires IsExecutable(Waived(r).decision, true) && PacingGates(r) == [] && IsFirstEmail(r)
    ensures Decide(r, READY.(hasDraft := false), true, now) == NotSendable(NoDraft)
  {
    PassedIsNotStuck(r);
    JudgedIff(r, true, now);
    AcceptedIsWaived(r, true, now);
  }

  /** One undrafted first email, previewed as going out and held for want of words. */
  lemma UndraftedIsPreviewedAsApproved(now: nat)
    ensures DryRun(FirstEmail(1.0), now) == WouldApprove
    ensures Decide(FirstEmail(1.0), READY.(hasDraft := false), true, now) == NotSendable(NoDraft)
  {
    NothingElseInTheWay(1.0);
    FirstEmailIsUnpaced(1.0);
    PreviewedExecutableIff(FirstEmail(1.0), now);
    UndraftedIsHeld(FirstEmail(1.0), now);
  }

  /** No hold, hand-off or waiver reaches a person who must not be contacted. */
  lemma ProhibitedIsNeverApproved(r: Request, ready: Readiness, allowHandoff: bool, now: nat)
    requires Prohibited(r)
    ensures Decide(r, ready, allowHandoff, now).Refused?
  {
    ProhibitedIsDenied(Unpaced(r));
    UnpacedAcceptableIff(r, allowHandoff);
    JudgedIff(r, allowHandoff, now);
  }
}
