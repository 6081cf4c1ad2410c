/**
 * The deterministic policy engine: fifteen gates, each of which may hold or
 * tighten a decision and none of which may loosen it.
 */
module PolicyEngine {
  import opened Options

  /** From the least to the most restrictive; see Rank. */
  datatype Decision = Allow | AllowWithApproval | ManualOnly | Deny

  function Rank(d: Decision): nat {
    match d
    case Allow => 0
    case AllowWithApproval => 1
    case ManualOnly => 2
    case Deny => 3
  }

  /** The stricter of two decisions; the first one on a tie. */
  function Tighten(current: Decision, next: Decision): Decision {
    if Rank(next) > Rank(current) then next else current
  }

  datatype Gate =
    | UnknownCapability | FeatureFlag | CapabilityDisabled | PersonIneligible
    | IdentityConfidence | ApprovalModeGate | BudgetExhausted | RateLimitDaily
    | RateLimitProspect | RateLimitAddress | Cooldown | ConversationOpen
    | NoConnectedAccount | CapabilityMode | OutboundRequiresApproval

  datatype Network =
    | LinkedIn | X | GitHub | Bluesky | Mastodon | Reddit | HackerNews | Nostr
    | YouTube | Instagram | Website | Rss | Email | Crm

  datatype Action =
    | Observe | RefreshResearch | ViewProfile | Follow | Like | Reply | Comment
    | Connect | SendDm | SendEmail | CreateCrmTask | Wait | Suppress | ManualReview

  datatype Mode =
    | Disabled | ResearchOnly | DraftOnly | ManualOnlyMode | OfficialApi
    | ApprovedPartner | CustomerManaged

  datatype ApprovalMode = ResearchOnlyCampaign | DraftAndApprove | TrustedAutomation

  /** A numeric cap from a campaign budget, or none at all. */
  datatype Cap = Unlimited | AtMost(n: real)

  predicate Outbound(a: Action) {
    a in {Reply, Comment, Connect, SendDm, SendEmail}
  }

  predicate Internal(a: Action) {
    a in {Observe, RefreshResearch, Wait, Suppress, ManualReview, CreateCrmTask}
  }

  predicate Research(a: Action) {
    a in {Observe, RefreshResearch, ViewProfile}
  }

  const DEFAULT_COOLDOWN_HOURS := 72.0
  const DEFAULT_ADDRESS_CAP_PER_WEEK := 1.0

  /** Kill switches that are explicitly off. A flag nobody set counts as on. */
  datatype Switch = Capability(network: Network, action: Action) | AutoReply(network: Network)

  datatype Request = Request(
    network: Network,
    action: Action,
    approvalMode: ApprovalMode,
    hasConnectedAccount: bool,
    personSuppressed: bool,
    personBelievedMinor: bool,
    personDeleted: bool,
    personScreenedOut: bool,
    identityConfidence: real,
    minIdentityConfidence: real,
    actionsToday: nat,
    maxActionsPerDay: Cap,
    actionsToProspectThisWeek: nat,
    maxActionsPerProspectPerWeek: real,
    hoursSinceProspect: Option<real>,
    minHoursBetweenActions: Option<real>,
    actionsToAddressThisWeek: Option<nat>,
    maxActionsPerAddressPerWeek: Option<real>,
    hoursSinceAddress: Option<real>,
    addressShared: bool,
    conversationOpen: bool,
    isFollowUp: bool,
    autonomousReply: bool,
    budgetExhausted: bool,
    switchedOff: set<Switch>)

  datatype Entry = Entry(gate: Gate, decision: Decision)

  datatype Result = Result(decision: Decision, gate: Option<Gate>, mode: Option<Mode>, trace: seq<Entry>)

  // ------------------------------------------------------ capability matrix

  /** What each network permits; None is the fail-closed default. */
  function DefaultRule(network: Network, action: Action): Option<Mode> {
    match network
    case LinkedIn =>
      (match action
       case Observe => Some(ResearchOnly)
       case RefreshResearch => Some(ResearchOnly)
       case Like => Some(ManualOnlyMode)
       case ViewProfile => Some(CustomerManaged)
       case Connect => Some(CustomerManaged)
       case SendDm => Some(CustomerManaged)
       case Comment => Some(CustomerManaged)
       case Reply => Some(CustomerManaged)
       case Follow => Some(CustomerManaged)
       case _ => None)
    case X => SocialRule(action)
    case Bluesky => SocialRule(action)
    case Mastodon => SocialRule(action)
    case Nostr => if action in {Like, Follow} then None else SocialRule(action)
    case GitHub =>
      (match action
       case Observe => Some(OfficialApi)
       case RefreshResearch => Some(OfficialApi)
       case ViewProfile => Some(OfficialApi)
       case Comment => Some(Disabled)
       case Reply => Some(Disabled)
       case SendDm => Some(Disabled)
       case Follow => Some(ManualOnlyMode)
       case _ => None)
    case Website => if action in {Observe, RefreshResearch} then Some(ResearchOnly) else None
    case Rss => if action in {Observe, RefreshResearch} then Some(ResearchOnly) else None
    case Reddit =>
      if action in {Observe, RefreshResearch} then Some(OfficialApi)
      else if action == SendDm then Some(Disabled) else None
    case YouTube => if action in {Observe, RefreshResearch} then Some(OfficialApi) else None
    case Instagram => if action == Observe then Some(Disabled) else None
    case Email => if action == SendEmail then Some(CustomerManaged) else None
    case Crm => if action == CreateCrmTask then Some(CustomerManaged) else None
    case HackerNews => None
  }

  /** X, Bluesky and Mastodon share a row: public engagement yes, private messages by hand. */
  function SocialRule(action: Action): Option<Mode> {
    if action in {Observe, RefreshResearch, ViewProfile, Like, Follow, Reply, Comment} then Some(OfficialApi)
    else if action == SendDm then Some(ManualOnlyMode) else None
  }

  // ------------------------------------------------------------------ gates

  function Refuse(hit: bool, gate: Gate): seq<Entry> {
    if hit then [Entry(gate, Deny)] else []
  }

  function CooldownHours(r: Request): real {
    if r.minHoursBetweenActions.Some? then r.minHoursBetweenActions.value else DEFAULT_COOLDOWN_HOURS
  }

  function AddressCap(r: Request): real {
    if r.maxActionsPerAddressPerWeek.Some? then r.maxActionsPerAddressPerWeek.value else DEFAULT_ADDRESS_CAP_PER_WEEK
  }

  predicate DayFull(r: Request) {
    r.maxActionsPerDay.AtMost? && r.actionsToday as real >= r.maxActionsPerDay.n
  }

  predicate ProspectFull(r: Request) {
    r.actionsToProspectThisWeek as real >= r.maxActionsPerProspectPerWeek
  }

  predicate ProspectCooling(r: Request) {
    r.hoursSinceProspect.Some? && r.hoursSinceProspect.value < CooldownHours(r)
  }

  predicate AddressFull(r: Request) {
    r.actionsToAddressThisWeek.Some? && r.actionsToAddressThisWeek.value as real >= AddressCap(r)
  }

  predicate AddressCooling(r: Request) {
    r.hoursSinceAddress.Some? && r.hoursSinceAddress.value < CooldownHours(r)
  }

  /** Answering someone who wrote to us. */
  predicate Answering(r: Request) {
    r.isFollowUp && r.conversationOpen
  }

  function SwitchGates(r: Request, mode: Mode): seq<Entry> {
    Refuse(Capability(r.network, r.action) in r.switchedOff, FeatureFlag)
    + Refuse(mode == Disabled, CapabilityDisabled)
  }

  function PersonGates(r: Request): seq<Entry> {
    Refuse(r.personDeleted, PersonIneligible)
    + Refuse(r.personSuppressed, PersonIneligible)
    + Refuse(r.personBelievedMinor, PersonIneligible)
    + Refuse(r.personScreenedOut && Outbound(r.action) && !Answering(r), PersonIneligible)
  }

  function CampaignGates(r: Request): seq<Entry> {
    Refuse(Outbound(r.action) && r.identityConfidence < r.minIdentityConfidence, IdentityConfidence)
    + Refuse(r.approvalMode == ResearchOnlyCampaign && !Research(r.action), ApprovalModeGate)
    + Refuse(!Internal(r.action) && r.budgetExhausted, BudgetExhausted)
  }

  /** Refusals that no amount of waiting lifts. */
  function StandingGates(r: Request, mode: Mode): seq<Entry> {
    SwitchGates(r, mode) + PersonGates(r) + CampaignGates(r)
  }

  /** The two address-keyed limits, in gate order. */
  function AddressLimits(r: Request): seq<Entry> {
    Refuse(AddressFull(r), RateLimitAddress) + Refuse(AddressCooling(r), Cooldown)
  }

  /** The gates that count what was already sent. */
  function PacingGates(r: Request): seq<Entry> {
    if Internal(r.action) then []
    else
      Refuse(DayFull(r), RateLimitDaily)
      + Refuse(!Answering(r) && ProspectFull(r), RateLimitProspect)
      + Refuse(!Answering(r) && ProspectCooling(r), Cooldown)
      + (if Answering(r) && !r.addressShared then [] else AddressLimits(r))
  }

  /** A contact who wrote back is out of the cold flow. */
  function ThreadGate(r: Request): seq<Entry> {
    if !(Outbound(r.action) && r.conversationOpen) then []
    else if !r.isFollowUp then [Entry(ConversationOpen, Deny)]
    else if r.autonomousReply && r.approvalMode == TrustedAutomation && AutoReply(r.network) !in r.switchedOff then []
    else [Entry(ConversationOpen, AllowWithApproval)]
  }

  function ModeGate(r: Request, mode: Mode): seq<Entry> {
    match mode
    case Disabled => [Entry(CapabilityMode, Deny)]
    case ResearchOnly => if Research(r.action) then [] else [Entry(CapabilityMode, ManualOnly)]
    case DraftOnly => [Entry(CapabilityMode, ManualOnly)]
    case ManualOnlyMode => [Entry(CapabilityMode, ManualOnly)]
    case _ =>
      if r.hasConnectedAccount || (mode != CustomerManaged && Research(r.action)) then []
      else [Entry(NoConnectedAccount, ManualOnly)]
  }

  /** Outbound work nothing restricted still waits for a human outside trusted automation. */
  function ApprovalGate(r: Request, mode: Mode, soFar: Decision): seq<Entry> {
    if soFar == Allow && Outbound(r.action)
       && !(r.approvalMode == TrustedAutomation && mode in {OfficialApi, CustomerManaged})
    then [Entry(OutboundRequiresApproval, AllowWithApproval)] else []
  }

  /** The running decision: each restriction in turn tightens what came before. */
  function Fold(current: Decision, trace: seq<Entry>): Decision
    decreases trace
  {
    if trace == [] then current else Fold(Tighten(current, trace[0].decision), trace[1..])
  }

  /** The last gate that asked for the given decision. */
  function LastGate(trace: seq<Entry>, d: Decision): Option<Gate> {
    if trace == [] then None
    else if trace[|trace| - 1].decision == d then Some(trace[|trace| - 1].gate)
    else LastGate(trace[..|trace| - 1], d)
  }

  /** Every gate up to the approval gate, in the order they run. */
  function EarlyTrace(r: Request, mode: Mode): seq<Entry> {
    StandingGates(r, mode) + PacingGates(r) + ThreadGate(r) + ModeGate(r, mode)
  }

  function Verdict(r: Request, mode: Mode, early: seq<Entry>): Result {
    var trace := early + ApprovalGate(r, mode, Fold(Allow, early));
    var decision := Fold(Allow, trace);
    Result(decision, LastGate(trace, decision), Some(mode), trace)
  }

  const UNKNOWN := Result(Deny, Some(UnknownCapability), None, [Entry(UnknownCapability, Deny)])

  function Evaluate(r: Request): Result {
    var rule := DefaultRule(r.network, r.action);
    if rule.None? then UNKNOWN else Verdict(r, rule.value, EarlyTrace(r, rule.value))
  }

  // ------------------------------------------------------------- the laws

  ghost predicate Asks(trace: seq<Entry>, d: Decision) {
    exists e :: e in trace && e.decision == d
  }

  /** The strictest decision any entry asks for, whatever their order. */
  ghost function Strictest(trace: seq<Entry>): Decision {
    if Asks(trace, Deny) then Deny
    else if Asks(trace, ManualOnly) then ManualOnly
    else if Asks(trace, AllowWithApproval) then AllowWithApproval
    else Allow
  }

  lemma AsksCons(trace: seq<Entry>, d: Decision)
    requires trace != []
    ensures Asks(trace, d) <==> trace[0].decision == d || Asks(trace[1..], d)
  {
    if trace[0].decision == d {
      assert trace[0] in trace;
    } else if Asks(trace[1..], d) {
      var e :| e in trace[1..] && e.decision == d;
      assert e in trace;
    }
  }

  /** Running the gates is taking the strictest of what they ask for. */
  lemma {:induction false} FoldIsStrictest(current: Decision, trace: seq<Entry>)
    ensures Fold(current, trace) == Tighten(current, Strictest(trace))
    decreases trace
  {
    if trace != [] {
      FoldIsStrictest(Tighten(current, trace[0].decision), trace[1..]);
      AsksCons(trace, Deny);
      AsksCons(trace, ManualOnly);
      AsksCons(trace, AllowWithApproval);
    }
  }

  /** Gate order cannot re-permit anything: a reordered trace decides the same. */
  lemma GateOrderIsIrrelevant(a: seq<Entry>, b: seq<Entry>)
    requires multiset(a) == multiset(b)
    ensures Fold(Allow, a) == Fold(Allow, b)
  {
    forall e ensures e in a <==> e in b {
      assert e in multiset(a) <==> e in multiset(b);
    }
    FoldIsStrictest(Allow, a);
    FoldIsStrictest(Allow, b);
  }

  lemma {:induction false} FoldJoins(current: Decision, a: seq<Entry>, b: seq<Entry>)
    ensures Fold(current, a + b) == Fold(Fold(current, a), b)
    decreases a
  {
    if a == [] {
      assert a + b == b;
    } else {
      FoldJoins(Tighten(current, a[0].decision), a[1..], b);
      assert (a + b)[1..] == a[1..] + b;
    }
  }

  /** The approval gate reads what was decided so far, yet decides the same run first, last or in between. */
  lemma ApprovalGateRunsAnywhere(r: Request, mode: Mode, before: seq<Entry>, after: seq<Entry>)
    ensures Fold(Allow, before + ApprovalGate(r, mode, Fold(Allow, before)) + after)
         == Verdict(r, mode, before + after).decision
  {
    var soFar := Fold(Allow, before);
    var gate := ApprovalGate(r, mode, soFar);
    FoldJoins(Allow, before + gate, after);
    FoldJoins(Allow, before, gate);
    FoldIsStrictest(Fold(soFar, gate), after);
    FoldJoins(Allow, before, after);
    FoldIsStrictest(soFar, after);
    var last := ApprovalGate(r, mode, Fold(Allow, before + after));
    FoldJoins(Allow, before + after, last);
    FoldOfOne(soFar, gate);
    FoldOfOne(Fold(Allow, before + after), last);
  }

  lemma FoldOfOne(current: Decision, trace: seq<Entry>)
    requires |trace| <= 1
    ensures Fold(current, trace) == if trace == [] then current else Tighten(current, trace[0].decision)
  {
    if trace != [] {
      assert trace[1..] == [];
    }
  }

  /** The whole engine, its fifteen gates in any order: one decision. */
  lemma AnyOrderDecidesTheSame(r: Request, before: seq<Entry>, after: seq<Entry>)
    requires DefaultRule(r.network, r.action).Some?
    requires multiset(before + after) == multiset(EarlyTrace(r, DefaultRule(r.network, r.action).value))
    ensures var mode := DefaultRule(r.network, r.action).value;
            Fold(Allow, before + ApprovalGate(r, mode, Fold(Allow, before)) + after) == Evaluate(r).decision
  {
    var mode := DefaultRule(r.network, r.action).value;
    var early, other := EarlyTrace(r, mode), before + after;
    ApprovalGateRunsAnywhere(r, mode, before, after);
    GateOrderIsIrrelevant(other, early);
    FoldJoins(Allow, other, ApprovalGate(r, mode, Fold(Allow, other)));
    FoldJoins(Allow, early, ApprovalGate(r, mode, Fold(Allow, early)));
  }

  /** No gate loosens: whatever runs later, the decision is at least as strict. */
  lemma NeverUpgrades(before: seq<Entry>, after: seq<Entry>)
    ensures Rank(Fold(Allow, before + after)) >= Rank(Fold(Allow, before))
  {
    FoldIsStrictest(Allow, before + after);
    FoldIsStrictest(Allow, before);
    forall d | Asks(before, d) ensures Asks(before + after, d) {
      var e :| e in before && e.decision == d;
      assert e in before + after;
    }
  }

  /** The last entry with this decision is this gate's. */
  ghost predicate IsLast(trace: seq<Entry>, gate: Gate, d: Decision) {
    exists n :: 0 <= n < |trace| && trace[n] == Entry(gate, d) && forall m :: n < m < |trace| ==> trace[m].decision != d
  }

  lemma {:induction false} LastGateFound(trace: seq<Entry>, d: Decision)
    ensures LastGate(trace, d).Some? <==> Asks(trace, d)
    ensures LastGate(trace, d).Some? ==> IsLast(trace, LastGate(trace, d).value, d)
  {
    if trace != [] {
      var n := |trace| - 1;
      if trace[n].decision == d {
        assert trace[n] == Entry(trace[n].gate, d) && trace[n] in trace;
      } else {
        LastGateFound(trace[..n], d);
        if Asks(trace, d) {
          var e :| e in trace && e.decision == d;
          assert e in trace[..n];
          LastStays(trace[..n], trace[n], LastGate(trace[..n], d).value, d);
          assert trace == trace[..n] + [trace[n]];
        }
      }
    }
  }

  lemma LastStays(trace: seq<Entry>, e: Entry, gate: Gate, d: Decision)
    requires IsLast(trace, gate, d) && e.decision != d
    ensures IsLast(trace + [e], gate, d)
  {
    var n :| 0 <= n < |trace| && trace[n] == Entry(gate, d) && forall m :: n < m < |trace| ==> trace[m].decision != d;
    assert (trace + [e])[n] == Entry(gate, d);
  }

  /**
   * Every decision is the strictest restriction on record and is explained: it
   * names the last gate that asked for exactly it, unless nothing restricted the action.
   */
  lemma EveryDecisionIsExplained(r: Request)
    ensures var v := Evaluate(r);
      && v.decision == Strictest(v.trace)
      && (v.gate.None? <==> v.decision == Allow)
      && (v.gate.Some? ==> IsLast(v.trace, v.gate.value, v.decision))
  {
    var rule := DefaultRule(r.network, r.action);
    if rule.None? {
      assert UNKNOWN.trace[0] in UNKNOWN.trace;
      assert UNKNOWN.trace[0] == Entry(UnknownCapability, Deny);
    } else {
      var v := Evaluate(r);
      FoldIsStrictest(Allow, v.trace);
      LastGateFound(v.trace, v.decision);
      RestrictionsOnly(r, rule.value);
    }
  }

  lemma SwitchEntries(r: Request, mode: Mode)
    ensures forall e :: e in SwitchGates(r, mode) ==> e in {Entry(FeatureFlag, Deny), Entry(CapabilityDisabled, Deny)}
  {
  }

  lemma PersonEntries(r: Request)
    ensures forall e :: e in PersonGates(r) ==> e == Entry(PersonIneligible, Deny)
  {
  }

  lemma CampaignEntries(r: Request)
    ensures forall e :: e in CampaignGates(r) ==>
              e in {Entry(IdentityConfidence, Deny), Entry(ApprovalModeGate, Deny), Entry(BudgetExhausted, Deny)}
  {
  }

  /** The standing gates only ever refuse, and none of them counts what was sent. */
  lemma StandingEntries(r: Request, mode: Mode)
    ensures forall e :: e in StandingGates(r, mode) ==>
              && e.decision == Deny
              && e.gate in {FeatureFlag, CapabilityDisabled, PersonIneligible,
                            IdentityConfidence, ApprovalModeGate, BudgetExhausted}
  {
    SwitchEntries(r, mode);
    PersonEntries(r);
    CampaignEntries(r);
    forall e | e in StandingGates(r, mode)
        ensures e in SwitchGates(r, mode) || e in PersonGates(r) || e in CampaignGates(r) {
    }
  }

  /** The counting gates only ever refuse. */
  lemma PacingEntries(r: Request)
    ensures forall e :: e in PacingGates(r) ==>
              e.decision == Deny && e.gate in {RateLimitDaily, RateLimitProspect, RateLimitAddress, Cooldown}
  {
  }

  lemma EarlyParts(r: Request, mode: Mode, e: Entry)
    ensures e in EarlyTrace(r, mode) <==>
            e in StandingGates(r, mode) || e in PacingGates(r) || e in ThreadGate(r) || e in ModeGate(r, mode)
  {
    InFour(StandingGates(r, mode), PacingGates(r), ThreadGate(r), ModeGate(r, mode), e);
  }

  lemma InFour(a: seq<Entry>, b: seq<Entry>, c: seq<Entry>, d: seq<Entry>, e: Entry)
    ensures e in a + b + c + d <==> e in a || e in b || e in c || e in d
  {
  }

  /** The trace records restrictions, never permissions. */
  lemma RestrictionsOnly(r: Request, mode: Mode)
    ensures forall e :: e in Verdict(r, mode, EarlyTrace(r, mode)).trace ==> e.decision != Allow
  {
    EarlyRestrictionsOnly(r, mode);
    VerdictFacts(r, mode, EarlyTrace(r, mode));
  }

  lemma ThreadEntries(r: Request)
    ensures forall e :: e in ThreadGate(r) ==> e.decision in {Deny, AllowWithApproval}
  {
  }

  lemma ModeEntries(r: Request, mode: Mode)
    ensures forall e :: e in ModeGate(r, mode) ==>
              e.decision in {Deny, ManualOnly} && e.gate in {CapabilityMode, NoConnectedAccount}
  {
  }

  lemma EarlyEntry(r: Request, mode: Mode, e: Entry)
    requires e in EarlyTrace(r, mode)
    ensures e.decision != Allow
    ensures e.decision == ManualOnly ==> e.gate in {CapabilityMode, NoConnectedAccount}
  {
    EarlyParts(r, mode, e);
    if e in StandingGates(r, mode) {
      StandingEntries(r, mode);
    } else if e in PacingGates(r) {
      PacingEntries(r);
    } else if e in ThreadGate(r) {
      ThreadEntries(r);
    } else {
      ModeEntries(r, mode);
    }
  }

  lemma EarlyRestrictionsOnly(r: Request, mode: Mode)
    ensures forall e :: e in EarlyTrace(r, mode) ==> e.decision != Allow
  {
    forall e | e in EarlyTrace(r, mode) ensures e.decision != Allow {
      EarlyEntry(r, mode, e);
    }
  }

  // ---------------------------------------------------------- what it forbids

  /** The verdict on a trace: its strictest entry, with at most the approval gate added. */
  lemma VerdictFacts(r: Request, mode: Mode, early: seq<Entry>)
    ensures var v := Verdict(r, mode, early);
      && v.decision == Strictest(v.trace)
      && (forall e :: e in early ==> e in v.trace)
      && (forall e :: e in v.trace ==> e in early || e == Entry(OutboundRequiresApproval, AllowWithApproval))
  {
    FoldIsStrictest(Allow, Verdict(r, mode, early).trace);
  }

  predicate Prohibited(r: Request) {
    || r.personDeleted || r.personSuppressed || r.personBelievedMinor
    || Capability(r.network, r.action) in r.switchedOff
    || DefaultRule(r.network, r.action).None?
  }

  lemma ProhibitionIsOnRecord(r: Request, mode: Mode)
    requires r.personDeleted || r.personSuppressed || r.personBelievedMinor ||
        Capability(r.network, r.action) in r.switchedOff
    ensures exists e :: e in StandingGates(r, mode) && e.decision == Deny
  {
    if Capability(r.network, r.action) in r.switchedOff {
      assert SwitchGates(r, mode)[0] == Entry(FeatureFlag, Deny);
      assert SwitchGates(r, mode)[0] in StandingGates(r, mode);
    } else {
      assert PersonGates(r)[0] == Entry(PersonIneligible, Deny);
      assert PersonGates(r)[0] in StandingGates(r, mode);
    }
  }

  /** A deleted, suppressed or minor person, a flipped switch or an unknown capability is always refused. */
  lemma ProhibitedIsDenied(r: Request)
    requires Prohibited(r)
    ensures Evaluate(r).decision == Deny
  {
    var rule := DefaultRule(r.network, r.action);
    if rule.Some? {
      ProhibitionIsOnRecord(r, rule.value);
      var e :| e in StandingGates(r, rule.value) && e.decision == Deny;
      assert e in EarlyTrace(r, rule.value);
      VerdictFacts(r, rule.value, EarlyTrace(r, rule.value));
    }
  }

  lemma AllowMeansNothingEarly(r: Request, mode: Mode, early: seq<Entry>)
    requires Verdict(r, mode, early).decision == Allow
    requires forall e :: e in early ==> e.decision != Allow
    ensures early == [] && ApprovalGate(r, mode, Allow) == []
  {
    var last := ApprovalGate(r, mode, Fold(Allow, early));
    var trace := early + last;
    assert |early| > 0 ==> early[0] in trace;
    assert |last| > 0 ==> last[0] in trace;
    FoldIsStrictest(Allow, trace);
    assert !Asks(trace, Deny) && !Asks(trace, ManualOnly) && !Asks(trace, AllowWithApproval);
  }

  /** Nothing outbound goes out unseen unless the campaign is trusted and the platform offers an API or session. */
  lemma OutboundWaitsForAHuman(r: Request)
    requires Outbound(r.action) && Evaluate(r).decision == Allow
    ensures r.approvalMode == TrustedAutomation
    ensures DefaultRule(r.network, r.action) in {Some(OfficialApi), Some(CustomerManaged)}
    ensures r.conversationOpen ==> r.isFollowUp && r.autonomousReply && AutoReply(r.network) !in r.switchedOff
  {
    var mode := DefaultRule(r.network, r.action).value;
    EarlyRestrictionsOnly(r, mode);
    AllowMeansNothingEarly(r, mode, EarlyTrace(r, mode));
    assert |ThreadGate(r)| <= |EarlyTrace(r, mode)|;
  }

  /** Without the member's own session LinkedIn is research and hand-offs, never automation. */
  lemma LinkedInNeedsASession(r: Request)
    requires r.network == LinkedIn && !r.hasConnectedAccount
    requires r.action !in {Observe, RefreshResearch}
    ensures Evaluate(r).decision in {ManualOnly, Deny}
  {
    var rule := DefaultRule(r.network, r.action);
    if rule.Some? {
      var e := ModeGate(r, rule.value)[0];
      assert e.decision == ManualOnly && e in EarlyTrace(r, rule.value);
      VerdictFacts(r, rule.value, EarlyTrace(r, rule.value));
    }
  }

  lemma ManualEntry(r: Request, mode: Mode, gate: Gate)
    requires IsLast(Verdict(r, mode, EarlyTrace(r, mode)).trace, gate, ManualOnly)
    ensures gate in {CapabilityMode, NoConnectedAccount}
  {
    var e := Entry(gate, ManualOnly);
    assert e in Verdict(r, mode, EarlyTrace(r, mode)).trace;
    VerdictFacts(r, mode, EarlyTrace(r, mode));
    EarlyEntry(r, mode, e);
  }

  /** Only the capability gates ever answer "by hand". */
  lemma ManualComesFromCapability(r: Request)
    ensures Evaluate(r).decision == ManualOnly ==> Evaluate(r).gate in {Some(CapabilityMode), Some(NoConnectedAccount)}
  {
    if Evaluate(r).decision == ManualOnly {
      EveryDecisionIsExplained(r);
      ManualEntry(r, DefaultRule(r.network, r.action).value, Evaluate(r).gate.value);
    }
  }

  // ------------------------------------------------------- the decision itself

  /** The matrix read by capability instead of by network. */
  lemma MatrixIs(network: Network, action: Action)
    ensures DefaultRule(network, action) == Some(Disabled) <==>
            || (network == GitHub && action in {Comment, Reply, SendDm})
            || (network == Reddit && action == SendDm) || (network == Instagram && action == Observe)
    ensures DefaultRule(network, action) == Some(ResearchOnly) <==>
            action in {Observe, RefreshResearch} && network in {LinkedIn, Website, Rss}
    ensures DefaultRule(network, action) == Some(ManualOnlyMode) <==>
            || (action == SendDm && network in {X, Bluesky, Mastodon, Nostr})
            || (action == Like && network == LinkedIn) || (action == Follow && network == GitHub)
    ensures DefaultRule(network, action) == Some(OfficialApi) <==>
            || (action in {Observe, RefreshResearch} &&
                network in {X, Bluesky, Mastodon, Nostr, GitHub, Reddit, YouTube})
            || (action == ViewProfile && network in {X, Bluesky, Mastodon, Nostr, GitHub})
            || (action in {Reply, Comment} && network in {X, Bluesky, Mastodon, Nostr})
            || (action in {Like, Follow} && network in {X, Bluesky, Mastodon})
    ensures DefaultRule(network, action) == Some(CustomerManaged) <==>
            || (network == LinkedIn && action in {ViewProfile, Connect, SendDm, Comment, Reply, Follow})
            || (network == Email && action == SendEmail) || (network == Crm && action == CreateCrmTask)
    ensures DefaultRule(network, action) !in {Some(DraftOnly), Some(ApprovedPartner)}
  {
  }

  /** What refuses a message, whoever sends it: doubt about the person, or a thread it does not answer. */
  ghost predicate NotToBeWritten(r: Request) {
    || r.identityConfidence < r.minIdentityConfidence
    || (r.conversationOpen && !r.isFollowUp)
    || (r.personScreenedOut && !r.conversationOpen)
  }

  /** What refuses anything that costs or shows: no budget, a full day, this person or address too lately or often. */
  ghost predicate TooMuch(r: Request) {
    || r.budgetExhausted
    || (r.maxActionsPerDay.AtMost? && r.actionsToday as real >= r.maxActionsPerDay.n)
    || (!(r.isFollowUp && r.conversationOpen) && TooMuchForPerson(r))
    || ((r.isFollowUp && r.conversationOpen ==> r.addressShared) && TooMuchForAddress(r))
  }

  ghost predicate TooSoon(r: Request, hours: real) {
    hours < if r.minHoursBetweenActions.None? then 72.0 else r.minHoursBetweenActions.value
  }

  ghost predicate TooMuchForPerson(r: Request) {
    || r.actionsToProspectThisWeek as real >= r.maxActionsPerProspectPerWeek
    || (r.hoursSinceProspect.Some? && TooSoon(r, r.hoursSinceProspect.value))
  }

  ghost predicate TooMuchForAddress(r: Request) {
    || (r.actionsToAddressThisWeek.Some? &&
        r.actionsToAddressThisWeek.value as real >=
            if r.maxActionsPerAddressPerWeek.None? then 1.0 else r.maxActionsPerAddressPerWeek.value)
    || (r.hoursSinceAddress.Some? && TooSoon(r, r.hoursSinceAddress.value))
  }

  ghost predicate Refused(r: Request) {
    || DefaultRule(r.network, r.action) in {None, Some(Disabled)}
    || Capability(r.network, r.action) in r.switchedOff
    || r.personDeleted || r.personSuppressed || r.personBelievedMinor
    || (r.approvalMode == ResearchOnlyCampaign && r.action !in {Observe, RefreshResearch, ViewProfile})
    || (r.action in {Reply, Comment, Connect, SendDm, SendEmail} && NotToBeWritten(r))
    || (r.action !in {Observe, RefreshResearch, Wait, Suppress, ManualReview, CreateCrmTask} && TooMuch(r))
  }

  /** Left to a person: the platform wants it so, or nobody's account is there to act through. */
  ghost predicate ByHand(r: Request) {
    var rule := DefaultRule(r.network, r.action);
    || rule == Some(ManualOnlyMode)
    || (!r.hasConnectedAccount &&
        (rule == Some(CustomerManaged) || (rule == Some(OfficialApi) && r.action in {Like, Follow, Reply, Comment})))
  }

  /** A message a person has to approve: the campaign is not trusted, or the thread is not its own to continue. */
  ghost predicate NeedsApproval(r: Request) {
    && r.action in {Reply, Comment, Connect, SendDm, SendEmail}
    && (r.approvalMode != TrustedAutomation ||
        (r.conversationOpen && !(r.autonomousReply && AutoReply(r.network) !in r.switchedOff)))
  }

  lemma AsksJoin(a: seq<Entry>, b: seq<Entry>, d: Decision)
    ensures Asks(a + b, d) <==> Asks(a, d) || Asks(b, d)
  {
    if e :| e in a && e.decision == d {
      assert e in a + b;
    } else if e :| e in b && e.decision == d {
      assert e in a + b;
    }
  }

  lemma AsksOne(hit: bool, gate: Gate)
    ensures Asks(Refuse(hit, gate), Deny) <==> hit
  {
    if hit {
      assert Refuse(hit, gate)[0] == Entry(gate, Deny);
    }
  }

  lemma AsksFour(a: seq<Entry>, b: seq<Entry>, c: seq<Entry>, d: seq<Entry>, asked: Decision)
    ensures Asks(a + b + c + d, asked) <==> Asks(a, asked) || Asks(b, asked) || Asks(c, asked) || Asks(d, asked)
  {
    AsksJoin(a + b + c, d, asked);
    AsksJoin(a + b, c, asked);
    AsksJoin(a, b, asked);
  }

  lemma SwitchesRefuse(r: Request, mode: Mode)
    ensures Asks(SwitchGates(r, mode), Deny) <==>
            Capability(r.network, r.action) in r.switchedOff || mode == Disabled
  {
    var off := Capability(r.network, r.action) in r.switchedOff;
    AsksOne(off, FeatureFlag);
    AsksOne(mode == Disabled, CapabilityDisabled);
    AsksJoin(Refuse(off, FeatureFlag), Refuse(mode == Disabled, CapabilityDisabled), Deny);
  }

  lemma PersonRefuses(r: Request)
    ensures Asks(PersonGates(r), Deny) <==>
            || r.personDeleted || r.personSuppressed || r.personBelievedMinor
            || (r.personScreenedOut && r.action in {Reply, Comment, Connect, SendDm, SendEmail} &&
                !(r.isFollowUp && r.conversationOpen))
  {
    var screened := r.personScreenedOut && Outbound(r.action) && !Answering(r);
    AsksOne(r.personDeleted, PersonIneligible);
    AsksOne(r.personSuppressed, PersonIneligible);
    AsksOne(r.personBelievedMinor, PersonIneligible);
    AsksOne(screened, PersonIneligible);
    AsksFour(Refuse(r.personDeleted, PersonIneligible), Refuse(r.personSuppressed, PersonIneligible),
        Refuse(r.personBelievedMinor, PersonIneligible), Refuse(screened, PersonIneligible), Deny);
  }

  lemma CampaignRefuses(r: Request)
    ensures Asks(CampaignGates(r), Deny) <==>
            || (r.action in {Reply, Comment, Connect, SendDm, SendEmail} &&
                r.identityConfidence < r.minIdentityConfidence)
            || (r.approvalMode == ResearchOnlyCampaign && r.action !in {Observe, RefreshResearch, ViewProfile})
            || (r.action !in {Observe, RefreshResearch, Wait, Suppress, ManualReview, CreateCrmTask} &&
                r.budgetExhausted)
  {
    var unsure := Outbound(r.action) && r.identityConfidence < r.minIdentityConfidence;
    var barred := r.approvalMode == ResearchOnlyCampaign && !Research(r.action);
    var spent := !Internal(r.action) && r.budgetExhausted;
    AsksOne(unsure, IdentityConfidence);
    AsksOne(barred, ApprovalModeGate);
    AsksOne(spent, BudgetExhausted);
    AsksJoin(Refuse(unsure, IdentityConfidence) + Refuse(barred, ApprovalModeGate),
        Refuse(spent, BudgetExhausted), Deny);
    AsksJoin(Refuse(unsure, IdentityConfidence), Refuse(barred, ApprovalModeGate), Deny);
  }

  lemma AddressRefuses(r: Request)
    ensures Asks(AddressLimits(r), Deny) <==> TooMuchForAddress(r)
  {
    AsksOne(AddressFull(r), RateLimitAddress);
    AsksOne(AddressCooling(r), Cooldown);
    AsksJoin(Refuse(AddressFull(r), RateLimitAddress), Refuse(AddressCooling(r), Cooldown), Deny);
  }

  lemma PacingRefuses(r: Request)
    ensures r.budgetExhausted || (Asks(PacingGates(r), Deny) <==>
                r.action !in {Observe, RefreshResearch, Wait, Suppress, ManualReview, CreateCrmTask} && TooMuch(r))
  {
    if !Internal(r.action) {
      var day, often := Refuse(DayFull(r), RateLimitDaily), Refuse(!Answering(r) && ProspectFull(r), RateLimitProspect);
      var soon := Refuse(!Answering(r) && ProspectCooling(r), Cooldown);
      var address := if Answering(r) && !r.addressShared then [] else AddressLimits(r);
      AsksOne(DayFull(r), RateLimitDaily);
      AsksOne(!Answering(r) && ProspectFull(r), RateLimitProspect);
      AsksOne(!Answering(r) && ProspectCooling(r), Cooldown);
      AddressRefuses(r);
      AsksFour(day, often, soon, address, Deny);
    }
  }

  lemma ThreadAsks(r: Request)
    ensures Asks(ThreadGate(r), Deny) <==>
            r.action in {Reply, Comment, Connect, SendDm, SendEmail} && r.conversationOpen && !r.isFollowUp
    ensures Asks(ThreadGate(r), AllowWithApproval) <==>
            && r.action in {Reply, Comment, Connect, SendDm, SendEmail} && r.conversationOpen && r.isFollowUp
            && !(r.autonomousReply && r.approvalMode == TrustedAutomation && AutoReply(r.network) !in r.switchedOff)
  {
    if ThreadGate(r) != [] {
      assert ThreadGate(r)[0] in ThreadGate(r);
    }
  }

  lemma ModeAsks(r: Request, mode: Mode)
    requires DefaultRule(r.network, r.action) == Some(mode)
    ensures Asks(ModeGate(r, mode), Deny) <==> mode == Disabled
    ensures Asks(ModeGate(r, mode), ManualOnly) <==> ByHand(r)
  {
    MatrixIs(r.network, r.action);
    if ModeGate(r, mode) != [] {
      assert ModeGate(r, mode)[0] in ModeGate(r, mode);
    }
  }

  /** The gates up to the approval gate, each decision they may ask for. */
  lemma EarlyAsks(r: Request, mode: Mode)
    requires DefaultRule(r.network, r.action) == Some(mode)
    ensures Asks(EarlyTrace(r, mode), Deny) <==> Refused(r)
    ensures Asks(EarlyTrace(r, mode), ManualOnly) <==> ByHand(r)
    ensures Asks(EarlyTrace(r, mode), AllowWithApproval) <==> Asks(ThreadGate(r), AllowWithApproval)
  {
    StandingEntries(r, mode);
    PacingEntries(r);
    ThreadEntries(r);
    ModeEntries(r, mode);
    ModeAsks(r, mode);
    EarlyRefuses(r, mode);
    AsksFour(StandingGates(r, mode), PacingGates(r), ThreadGate(r), ModeGate(r, mode), ManualOnly);
    AsksFour(StandingGates(r, mode), PacingGates(r), ThreadGate(r), ModeGate(r, mode), AllowWithApproval);
  }

  lemma EarlyRefuses(r: Request, mode: Mode)
    requires DefaultRule(r.network, r.action) == Some(mode)
    ensures Asks(EarlyTrace(r, mode), Deny) <==> Refused(r)
  {
    SwitchesRefuse(r, mode);
    PersonRefuses(r);
    CampaignRefuses(r);
    PacingRefuses(r);
    ThreadAsks(r);
    ModeAsks(r, mode);
    AsksJoin(SwitchGates(r, mode) + PersonGates(r), CampaignGates(r), Deny);
    AsksJoin(SwitchGates(r, mode), PersonGates(r), Deny);
    AsksFour(StandingGates(r, mode), PacingGates(r), ThreadGate(r), ModeGate(r, mode), Deny);
  }

  /**
   * What fifteen gates decide, from the request alone: refused, left to a person,
   * waiting for one, or done.
   */
  lemma DecisionIs(r: Request)
    ensures Evaluate(r).decision == if Refused(r) then Deny
        else if ByHand(r) then ManualOnly
        else if NeedsApproval(r) then AllowWithApproval else Allow
  {
    var rule := DefaultRule(r.network, r.action);
    if rule.Some? {
      var early := EarlyTrace(r, rule.value);
      EarlyAsks(r, rule.value);
      if !Refused(r) && !ByHand(r) {
        ApprovalIs(r, rule.value);
      }
      FoldOf(early, Refused(r), ByHand(r), Asks(ThreadGate(r), AllowWithApproval));
      LastWord(r, rule.value, early);
    }
  }

  lemma FoldOf(trace: seq<Entry>, denied: bool, byHand: bool, approval: bool)
    requires Asks(trace, Deny) == denied && Asks(trace, ManualOnly) == byHand
    requires Asks(trace, AllowWithApproval) == approval
    ensures Fold(Allow, trace) ==
            if denied then Deny else if byHand then ManualOnly else if approval then AllowWithApproval else Allow
  {
    FoldIsStrictest(Allow, trace);
  }

  /** Where nothing refuses and an account is there, the thread and the approval gate ask for a person exactly then. */
  lemma ApprovalIs(r: Request, mode: Mode)
    requires DefaultRule(r.network, r.action) == Some(mode) && !Refused(r) && !ByHand(r)
    ensures ApprovalGate(r, mode, Allow) != [] || Asks(ThreadGate(r), AllowWithApproval) <==> NeedsApproval(r)
  {
    ThreadAsks(r);
    MatrixIs(r.network, r.action);
  }

  /** The approval gate speaks only when nothing else did. */
  lemma LastWord(r: Request, mode: Mode, early: seq<Entry>)
    ensures var soFar := Fold(Allow, early);
            Verdict(r, mode, early).decision ==
                if soFar == Allow && ApprovalGate(r, mode, Allow) != [] then AllowWithApproval else soFar
  {
    var last := ApprovalGate(r, mode, Fold(Allow, early));
    FoldJoins(Allow, early, last);
    FoldOfOne(Fold(Allow, early), last);
  }

  /** The cause each refusing gate has to have. */
  ghost predicate HasCause(r: Request, mode: Mode, gate: Gate) {
    match gate
    case FeatureFlag => Capability(r.network, r.action) in r.switchedOff
    case CapabilityDisabled => mode == Disabled
    case PersonIneligible => r.personDeleted || r.personSuppressed || r.personBelievedMinor || r.personScreenedOut
    case IdentityConfidence => r.identityConfidence < r.minIdentityConfidence
    case ApprovalModeGate => r.approvalMode == ResearchOnlyCampaign
    case BudgetExhausted => r.budgetExhausted
    case RateLimitDaily => r.maxActionsPerDay.AtMost? && r.actionsToday as real >= r.maxActionsPerDay.n
    case RateLimitProspect => r.actionsToProspectThisWeek as real >= r.maxActionsPerProspectPerWeek
    case RateLimitAddress => r.actionsToAddressThisWeek.Some?
    case Cooldown =>
      || (r.hoursSinceProspect.Some? && TooSoon(r, r.hoursSinceProspect.value))
      || (r.hoursSinceAddress.Some? && TooSoon(r, r.hoursSinceAddress.value))
    case _ => false
  }

  lemma SwitchIsNamed(r: Request, mode: Mode, e: Entry)
    requires e in SwitchGates(r, mode)
    ensures HasCause(r, mode, e.gate)
  {
    InTwo(Refuse(Capability(r.network, r.action) in r.switchedOff, FeatureFlag),
        Refuse(mode == Disabled, CapabilityDisabled), e);
  }

  lemma PersonIsNamed(r: Request, mode: Mode, e: Entry)
    requires e in PersonGates(r)
    ensures HasCause(r, mode, e.gate)
  {
    PersonEntries(r);
  }

  lemma CampaignIsNamed(r: Request, mode: Mode, e: Entry)
    requires e in CampaignGates(r)
    ensures HasCause(r, mode, e.gate)
  {
    var unsure := Refuse(Outbound(r.action) && r.identityConfidence < r.minIdentityConfidence, IdentityConfidence);
    var barred := Refuse(r.approvalMode == ResearchOnlyCampaign && !Research(r.action), ApprovalModeGate);
    InTwo(unsure + barred, Refuse(!Internal(r.action) && r.budgetExhausted, BudgetExhausted), e);
    InTwo(unsure, barred, e);
  }

  lemma InTwo(a: seq<Entry>, b: seq<Entry>, e: Entry)
    ensures e in a + b <==> e in a || e in b
  {
  }

  lemma PacingIsNamed(r: Request, mode: Mode, e: Entry)
    requires e in PacingGates(r)
    ensures HasCause(r, mode, e.gate)
  {
    var day, often := Refuse(DayFull(r), RateLimitDaily), Refuse(!Answering(r) && ProspectFull(r), RateLimitProspect);
    var soon := Refuse(!Answering(r) && ProspectCooling(r), Cooldown);
    InFour(day, often, soon, if Answering(r) && !r.addressShared then [] else AddressLimits(r), e);
  }

  /** Each refusal goes on record under the gate it belongs to, and only when that gate has cause. */
  lemma RefusalsAreNamed(r: Request, mode: Mode, e: Entry)
    requires e in StandingGates(r, mode) || e in PacingGates(r)
    ensures HasCause(r, mode, e.gate)
  {
    if e in PacingGates(r) {
      PacingIsNamed(r, mode, e);
    } else {
      InTwo(SwitchGates(r, mode) + PersonGates(r), CampaignGates(r), e);
      InTwo(SwitchGates(r, mode), PersonGates(r), e);
      if e in SwitchGates(r, mode) {
        SwitchIsNamed(r, mode, e);
      } else if e in PersonGates(r) {
        PersonIsNamed(r, mode, e);
      } else {
        CampaignIsNamed(r, mode, e);
      }
    }
  }
}
