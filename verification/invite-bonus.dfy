/**
 * Settling an accepted invite: whether a bonus is due, and why not when it is
 * not, recorded once per invitee before anything is paid. A settlement counts
 * the inviter's bonuses first and inserts its own row some awaits later.
 */
module InviteBonus {
  import opened Options
  import opened Sets

  datatype BonusStatus =
    | GrantedBonus
    | Disabled
    | DisposableDomain
    | SameMailbox
    | InviterTooNew
    | InviterCap
    | NoOrganization

  /** One row of `invite_bonuses`. */
  datatype Bonus = Bonus(invitee: string, inviter: string, status: BonusStatus, prospects: int, createdAt: int)

  const INVITER_MONTHLY_CAP: int := 10
  const MONTH: int := 2_592_000_000

  datatype Config = Config(inviteBonus: int, inviterMinAgeHours: real)

  /**
   * What the other tables say when an invitee's settlement is looked at. The
   * mailbox comparison and the throwaway-domain list are answers here.
   */
  datatype Facts = Facts(
    invitedBy: Option<string>,
    inviteeConfirmed: bool,
    inviterSince: Option<int>,
    disposable: bool,
    sameMailbox: bool,
    inviteeOrg: Option<string>,
    inviterOrg: Option<string>)

  predicate Claimed(bonuses: seq<Bonus>, invitee: string) {
    exists i :: 0 <= i < |bonuses| && bonuses[i].invitee == invitee
  }

  predicate Counts(row: Bonus, inviter: string, from: int, to: int) {
    row.inviter == inviter && row.status == GrantedBonus && from <= row.createdAt <= to
  }

  /** Granted bonuses of an inviter stamped from `from` to `to`, both included. */
  function Earned(bonuses: seq<Bonus>, inviter: string, from: int, to: int): nat {
    if bonuses == [] then 0
    else
      var last := bonuses[|bonuses| - 1];
      Earned(bonuses[..|bonuses| - 1], inviter, from, to)
      + (if Counts(last, inviter, from, to) then 1 else 0)
  }

  function EarnedSince(bonuses: seq<Bonus>, inviter: string, from: int): nat {
    if bonuses == [] then 0
    else
      var last := bonuses[|bonuses| - 1];
      EarnedSince(bonuses[..|bonuses| - 1], inviter, from)
      + (if last.inviter == inviter && last.status == GrantedBonus && from <= last.createdAt then 1 else 0)
  }

  /** The first reason that applies, in this order. */
  function StatusFor(bonuses: seq<Bonus>, facts: Facts, config: Config, now: int): BonusStatus
    requires facts.invitedBy.Some? && facts.inviterSince.Some?
  {
    if config.inviteBonus <= 0 then Disabled
    else if facts.disposable then DisposableDomain
    else if facts.sameMailbox then SameMailbox
    else if (now - facts.inviterSince.value) as real / 3600000.0 < config.inviterMinAgeHours then InviterTooNew
    else if EarnedSince(bonuses, facts.invitedBy.value, now - MONTH) >= INVITER_MONTHLY_CAP then InviterCap
    else if facts.inviteeOrg.None? || facts.inviterOrg.None? then NoOrganization
    else GrantedBonus
  }

  /** Which rows are bonuses an inviter was granted since a moment. */
  function GrantedRows(bonuses: seq<Bonus>, inviter: string, from: int): set<nat> {
    set i | 0 <= i < |bonuses| && IsGranted(bonuses[i], inviter, from)
  }

  predicate IsGranted(row: Bonus, inviter: string, from: int) {
    row.inviter == inviter && row.status == GrantedBonus && row.createdAt >= from
  }

  lemma GrantedRowsSnoc(bonuses: seq<Bonus>, row: Bonus, inviter: string, from: int)
    ensures GrantedRows(bonuses + [row], inviter, from)
         == GrantedRows(bonuses, inviter, from) + (if IsGranted(row, inviter, from) then {|bonuses|} else {})
  {
    var all := bonuses + [row];
    forall i: nat ensures i in GrantedRows(all, inviter, from) <==>
        i in GrantedRows(bonuses, inviter, from) || (i == |bonuses| && IsGranted(row, inviter, from)) {
      if i < |bonuses| {
        assert all[i] == bonuses[i];
      }
    }
  }

  lemma {:induction false} EarnedIsACount(bonuses: seq<Bonus>, inviter: string, from: int)
    ensures EarnedSince(bonuses, inviter, from) == |GrantedRows(bonuses, inviter, from)|
  {
    if bonuses == [] {
      assert GrantedRows(bonuses, inviter, from) == {};
    } else {
      var n := |bonuses| - 1;
      EarnedIsACount(bonuses[..n], inviter, from);
      GrantedRowsSnoc(bonuses[..n], bonuses[n], inviter, from);
      assert bonuses == bonuses[..n] + [bonuses[n]];
    }
  }

  lemma {:induction false} EarnedIsLeft(bonuses: seq<Bonus>, inviter: string, from: int, to: int)
    requires from <= to + 1
    ensures Earned(bonuses, inviter, from, to)
         == EarnedSince(bonuses, inviter, from) - EarnedSince(bonuses, inviter, to + 1)
  {
    if |bonuses| > 0 {
      EarnedIsLeft(bonuses[..|bonuses| - 1], inviter, from, to);
    }
  }

  /** What is earned in a stretch is what was granted since it began and not since it ended. */
  lemma EarnedIsBetween(bonuses: seq<Bonus>, inviter: string, from: int, to: int)
    requires from <= to + 1
    ensures Earned(bonuses, inviter, from, to)
         == |GrantedRows(bonuses, inviter, from)| - |GrantedRows(bonuses, inviter, to + 1)|
  {
    EarnedIsLeft(bonuses, inviter, from, to);
    EarnedIsACount(bonuses, inviter, from);
    EarnedIsACount(bonuses, inviter, to + 1);
  }

  /**
   * Which answer a settlement gives, each told by itself: the first thing in the
   * way, in the order switched off, throwaway address, same mailbox, inviter too
   * new, ten earned in thirty days, no organization; and granted when none is.
   */
  lemma StatusTells(bonuses: seq<Bonus>, facts: Facts, config: Config, now: int)
    requires facts.invitedBy.Some? && facts.inviterSince.Some?
    ensures var status := StatusFor(bonuses, facts, config, now);
            var off, throwaway, same := config.inviteBonus < 1, facts.disposable, facts.sameMailbox;
            var tooNew := (now - facts.inviterSince.value) as real < config.inviterMinAgeHours * 3600000.0;
            var capped := EarnedSince(bonuses, facts.invitedBy.value, now - 30 * 24 * 3600 * 1000) > 9;
            var homeless := facts.inviteeOrg == None || facts.inviterOrg == None;
      && (status == Disabled <==> off)
      && (status == DisposableDomain <==> !off && throwaway)
      && (status == SameMailbox <==> !off && !throwaway && same)
      && (status == InviterTooNew <==> !off && !throwaway && !same && tooNew)
      && (status == InviterCap <==> !off && !throwaway && !same && !tooNew && capped)
      && (status == NoOrganization <==> !off && !throwaway && !same && !tooNew && !capped && homeless)
      && (status == GrantedBonus <==> !(off || throwaway || same || tooNew || capped || homeless))
  {
    HoursOf((now - facts.inviterSince.value) as real, config.inviterMinAgeHours);
  }

  lemma HoursOf(ms: real, hours: real)
    ensures ms / 3600000.0 < hours <==> ms < hours * 3600000.0
  {
  }

  /** The row a settlement writes; None when there is nothing to decide yet, or it has been decided. */
  function RowFor(bonuses: seq<Bonus>, invitee: string, facts: Facts, config: Config, now: int): Option<Bonus> {
    if facts.invitedBy.None? || Claimed(bonuses, invitee) || !facts.inviteeConfirmed ||
        facts.inviterSince.None? then None
    else
      var status := StatusFor(bonuses, facts, config, now);
      Some(Bonus(invitee, facts.invitedBy.value, status, if status == GrantedBonus then config.inviteBonus else 0, now))
  }

  function Settled(bonuses: seq<Bonus>, invitee: string, facts: Facts, config: Config, now: int): seq<Bonus> {
    var row := RowFor(bonuses, invitee, facts, config, now);
    if row.None? then bonuses else bonuses + [row.value]
  }

  // ------------------------------------------------- one settlement at a time

  /** One settlement: who, what the tables say, the settings in force, and when. */
  datatype Visit = Visit(invitee: string, facts: Facts, config: Config, now: int)

  function Run(visits: seq<Visit>): seq<Bonus> {
    if visits == [] then []
    else
      var last := visits[|visits| - 1];
      Settled(Run(visits[..|visits| - 1]), last.invitee, last.facts, last.config, last.now)
  }

  lemma {:induction false} BetweenIsWithinSince(bonuses: seq<Bonus>, inviter: string, from: int, to: int, since: int)
    requires since <= from
    ensures Earned(bonuses, inviter, from, to) <= EarnedSince(bonuses, inviter, since)
  {
    if bonuses != [] {
      BetweenIsWithinSince(bonuses[..|bonuses| - 1], inviter, from, to, since);
    }
  }

  lemma EarnedSnoc(bonuses: seq<Bonus>, row: Bonus, inviter: string, from: int, to: int)
    ensures Earned(bonuses + [row], inviter, from, to) == Earned(bonuses, inviter, from, to)
            + (if Counts(row, inviter, from, to) then 1 else 0)
  {
    assert (bonuses + [row])[..|bonuses|] == bonuses;
  }

  lemma SettlingStaysUnderCap(bonuses: seq<Bonus>, visit: Visit, inviter: string, from: int)
    requires Earned(bonuses, inviter, from, from + MONTH) <= INVITER_MONTHLY_CAP
    ensures var after := Settled(bonuses, visit.invitee, visit.facts, visit.config, visit.now);
            Earned(after, inviter, from, from + MONTH) <= INVITER_MONTHLY_CAP
  {
    var row := RowFor(bonuses, visit.invitee, visit.facts, visit.config, visit.now);
    if row.Some? {
      EarnedSnoc(bonuses, row.value, inviter, from, from + MONTH);
      if visit.now <= from + MONTH {
        BetweenIsWithinSince(bonuses, inviter, from, from + MONTH, visit.now - MONTH);
      }
    }
  }

  /**
   * While settlements follow one another, no inviter has more than ten granted
   * bonuses in any thirty days, wherever the thirty days are taken and whatever
   * order the stamps come in.
   */
  lemma {:induction false} AnyThirtyDays(visits: seq<Visit>, inviter: string, from: int)
    ensures Earned(Run(visits), inviter, from, from + MONTH) <= INVITER_MONTHLY_CAP
    decreases |visits|
  {
    if visits != [] {
      AnyThirtyDays(visits[..|visits| - 1], inviter, from);
      SettlingStaysUnderCap(Run(visits[..|visits| - 1]), visits[|visits| - 1], inviter, from);
    }
  }

  // -------------------------------------------------- settlements that overlap

  /** The table, and what each settlement under way has decided to claim. */
  datatype World = World(bonuses: seq<Bonus>, claims: seq<Option<Bonus>>)

  const EMPTY: World := World([], [])

  datatype Step = Look(visit: Visit) | Insert(i: nat) | Stop(i: nat)

  predicate Enabled(w: World, step: Step) {
    match step
    case Look(_) => true
    case Insert(i) => i < |w.claims| && w.claims[i].Some?
    case Stop(i) => i < |w.claims|
  }

  /** The row is refused when the invitee has one already. */
  function Inserted(bonuses: seq<Bonus>, row: Bonus): seq<Bonus> {
    if Claimed(bonuses, row.invitee) then bonuses else bonuses + [row]
  }

  function Apply(w: World, step: Step): World
    requires Enabled(w, step)
  {
    match step
    case Look(v) => w.(claims := w.claims + [RowFor(w.bonuses, v.invitee, v.facts, v.config, v.now)])
    case Insert(i) => World(Inserted(w.bonuses, w.claims[i].value), w.claims[i := None])
    case Stop(i) => w.(claims := w.claims[i := None])
  }

  predicate CanRun(w: World, steps: seq<Step>)
    decreases |steps|
  {
    steps == [] || (Enabled(w, steps[0]) && CanRun(Apply(w, steps[0]), steps[1..]))
  }

  function After(w: World, steps: seq<Step>): World
    requires CanRun(w, steps)
    decreases |steps|
  {
    if steps == [] then w else After(Apply(w, steps[0]), steps[1..])
  }

  /** With nothing in between, looking and inserting is settling. */
  lemma AloneIsSettled(w: World, v: Visit)
    ensures var looked := Apply(w, Look(v));
            var settled := if Enabled(looked, Insert(|w.claims|)) then Apply(looked, Insert(|w.claims|)) else looked;
            settled.bonuses == Settled(w.bonuses, v.invitee, v.facts, v.config, v.now)
  {
  }

  predicate WorthItsStatus(row: Bonus) {
    if row.status == GrantedBonus then row.prospects > 0 else row.prospects == 0
  }

  predicate Sound(w: World) {
    && (forall i, j :: 0 <= i < j < |w.bonuses| ==> w.bonuses[i].invitee != w.bonuses[j].invitee)
    && (forall i :: 0 <= i < |w.bonuses| ==> WorthItsStatus(w.bonuses[i]))
    && (forall i :: 0 <= i < |w.claims| && w.claims[i].Some? ==> WorthItsStatus(w.claims[i].value))
  }

  lemma StepIsSound(w: World, step: Step)
    requires Sound(w) && Enabled(w, step)
    ensures Sound(Apply(w, step))
  {
  }

  /** However settlements overlap or stop: one row for an invitee, and only a granted one is worth anything. */
  lemma {:induction false} RunIsSound(w: World, steps: seq<Step>)
    requires Sound(w) && CanRun(w, steps)
    ensures Sound(After(w, steps))
    decreases |steps|
  {
    if steps != [] {
      StepIsSound(w, steps[0]);
      RunIsSound(Apply(w, steps[0]), steps[1..]);
    }
  }

  lemma OneRowPerInvitee(steps: seq<Step>, i: nat, j: nat)
    requires CanRun(EMPTY, steps) && i < |After(EMPTY, steps).bonuses| && j < |After(EMPTY, steps).bonuses|
    ensures var bonuses := After(EMPTY, steps).bonuses;
      && (bonuses[i].invitee == bonuses[j].invitee ==> i == j)
      && (bonuses[i].prospects > 0 <==> bonuses[i].status == GrantedBonus)
  {
    RunIsSound(EMPTY, steps);
  }

  // ----------------------------------------------------- the cap under overlap

  predicate Waits(w: World, i: int, inviter: string, from: int, to: int) {
    && 0 <= i < |w.claims| && w.claims[i].Some?
    && Counts(w.claims[i].value, inviter, from, to) && !Claimed(w.bonuses, w.claims[i].value.invitee)
  }

  /** Invitees whose bonus is decided, would count, and can still be inserted. */
  function Waiting(w: World, inviter: string, from: int, to: int): set<string> {
    set i | 0 <= i < |w.claims| && Waits(w, i, inviter, from, to) :: w.claims[i].value.invitee
  }

  function Due(w: World, inviter: string, from: int, to: int): nat {
    Earned(w.bonuses, inviter, from, to) + |Waiting(w, inviter, from, to)|
  }

  /** Steps that finish what is under way. */
  predicate Ends(steps: seq<Step>) {
    forall i :: 0 <= i < |steps| ==> !steps[i].Look?
  }

  lemma ClaimedSnoc(bonuses: seq<Bonus>, row: Bonus, invitee: string)
    ensures Claimed(bonuses + [row], invitee) <==> Claimed(bonuses, invitee) || row.invitee == invitee
  {
    assert (bonuses + [row])[|bonuses|] == row;
    assert forall i :: 0 <= i < |bonuses| ==> (bonuses + [row])[i] == bonuses[i];
  }

  lemma FewerWait(w: World, i: nat, inviter: string, from: int, to: int)
    requires Enabled(w, Insert(i))
    ensures var row, after := w.claims[i].value, Apply(w, Insert(i));
            Waiting(after, inviter, from, to) <= Waiting(w, inviter, from, to) - {row.invitee}
  {
    var row, after := w.claims[i].value, Apply(w, Insert(i));
    forall j | 0 <= j < |after.claims| && Waits(after, j, inviter, from, to)
      ensures Waits(w, j, inviter, from, to) && w.claims[j].value.invitee != row.invitee
    {
      ClaimedSnoc(w.bonuses, row, w.claims[j].value.invitee);
      ClaimedSnoc(w.bonuses, row, row.invitee);
    }
  }

  lemma InsertingCounts(w: World, i: nat, inviter: string, from: int, to: int)
    requires Enabled(w, Insert(i))
    ensures Due(Apply(w, Insert(i)), inviter, from, to) <= Due(w, inviter, from, to)
  {
    var row, waiting := w.claims[i].value, Waiting(w, inviter, from, to);
    FewerWait(w, i, inviter, from, to);
    EarnedSnoc(w.bonuses, row, inviter, from, to);
    if Waits(w, i, inviter, from, to) {
      assert row.invitee in waiting;
      SubsetIsSmaller(Waiting(Apply(w, Insert(i)), inviter, from, to), waiting - {row.invitee});
    } else {
      SubsetIsSmaller(Waiting(Apply(w, Insert(i)), inviter, from, to), waiting);
    }
  }

  lemma StoppingCounts(w: World, i: nat, inviter: string, from: int, to: int)
    requires Enabled(w, Stop(i))
    ensures Due(Apply(w, Stop(i)), inviter, from, to) <= Due(w, inviter, from, to)
  {
    var after := Apply(w, Stop(i));
    assert forall j :: Waits(after, j, inviter, from, to) ==>
        Waits(w, j, inviter, from, to) && w.claims[j] == after.claims[j];
    SubsetIsSmaller(Waiting(after, inviter, from, to), Waiting(w, inviter, from, to));
  }

  lemma {:induction false} NeverMoreThanDue(w: World, steps: seq<Step>, inviter: string, from: int, to: int)
    requires CanRun(w, steps) && Ends(steps)
    ensures Earned(After(w, steps).bonuses, inviter, from, to) <= Due(w, inviter, from, to)
    decreases |steps|
  {
    if steps != [] {
      match steps[0] {
        case Insert(i) => InsertingCounts(w, i, inviter, from, to);
        case Stop(i) => StoppingCounts(w, i, inviter, from, to);
      }
      NeverMoreThanDue(Apply(w, steps[0]), steps[1..], inviter, from, to);
    }
  }

  lemma OthersStillWait(w: World, i: nat, j: nat, inviter: string, from: int, to: int)
    requires Enabled(w, Insert(i)) && Waits(w, j, inviter, from, to)
    requires w.claims[j].value.invitee != w.claims[i].value.invitee
    ensures Waits(Apply(w, Insert(i)), j, inviter, from, to)
    ensures Apply(w, Insert(i)).claims[j] == w.claims[j]
  {
    ClaimedSnoc(w.bonuses, w.claims[i].value, w.claims[j].value.invitee);
  }

  /** Inserting a claim that waits counts it, and takes nobody else off the list. */
  lemma InsertingOne(w: World, i: nat, inviter: string, from: int, to: int)
    requires Waits(w, i, inviter, from, to)
    ensures var row, after := w.claims[i].value, Apply(w, Insert(i));
      && Waiting(after, inviter, from, to) == Waiting(w, inviter, from, to) - {row.invitee}
      && row.invitee in Waiting(w, inviter, from, to)
      && Earned(after.bonuses, inviter, from, to) == Earned(w.bonuses, inviter, from, to) + 1
  {
    var row, after := w.claims[i].value, Apply(w, Insert(i));
    EarnedSnoc(w.bonuses, row, inviter, from, to);
    FewerWait(w, i, inviter, from, to);
    forall x | x in Waiting(w, inviter, from, to) && x != row.invitee ensures x in Waiting(after, inviter, from, to) {
      var j :| 0 <= j < |w.claims| && Waits(w, j, inviter, from, to) && w.claims[j].value.invitee == x;
      OthersStillWait(w, i, j, inviter, from, to);
    }
  }

  lemma {:induction false} AllDueCanHappen(w: World, inviter: string, from: int, to: int) returns (steps: seq<Step>)
    ensures CanRun(w, steps) && Ends(steps)
    ensures Earned(After(w, steps).bonuses, inviter, from, to) == Due(w, inviter, from, to)
    decreases |Waiting(w, inviter, from, to)|
  {
    steps := [];
    if Waiting(w, inviter, from, to) != {} {
      var x :| x in Waiting(w, inviter, from, to);
      var i :| 0 <= i < |w.claims| && Waits(w, i, inviter, from, to);
      InsertingOne(w, i, inviter, from, to);
      var rest := AllDueCanHappen(Apply(w, Insert(i)), inviter, from, to);
      steps := [Insert(i)] + rest;
      assert steps[1..] == rest;
    }
  }

  /**
   * However the settlements under way end, an inviter keeps within the cap in
   * given thirty days exactly when the bonuses granted there and the invitees
   * still waiting for one there are at most ten together.
   */
  lemma CapHoldsIff(w: World, inviter: string, from: int)
    ensures (forall steps :: CanRun(w, steps) && Ends(steps) ==>
               Earned(After(w, steps).bonuses, inviter, from, from + 30 * 24 * 3600 * 1000) <= 10)
       <==> Due(w, inviter, from, from + 30 * 24 * 3600 * 1000) <= 10
  {
    var all := AllDueCanHappen(w, inviter, from, from + MONTH);
    forall steps | CanRun(w, steps) && Ends(steps)
      ensures Earned(After(w, steps).bonuses, inviter, from, from + MONTH) <= Due(w, inviter, from, from + MONTH)
    {
      NeverMoreThanDue(w, steps, inviter, from, from + MONTH);
    }
  }

  // ------------------------------------------------------- any number at once

  /** A confirmed invitee of an inviter, with nothing against the bonus. */
  function Good(invitee: string, inviter: string, at: int): Visit {
    Visit(invitee, Facts(Some(inviter), true, Some(at), false, false, Some(invitee), Some(inviter)), Config(5, 0.0), at)
  }

  lemma GoodIsGranted(bonuses: seq<Bonus>, invitee: string, inviter: string, at: int)
    requires |bonuses| == 0
    ensures var v := Good(invitee, inviter, at);
            RowFor(bonuses, invitee, v.facts, v.config, at) == Some(Bonus(invitee, inviter, GrantedBonus, 5, at))
  {
  }

  // ------------------------------------------------------- the cap is met

  function Named(n: nat): string {
    seq(n, _ => 'x')
  }

  /** Different invitees of one inviter with nothing against them, settled one after another in one moment. */
  ghost predicate InTurn(visits: seq<Visit>, inviter: string, at: int) {
    forall i :: 0 <= i < |visits| ==> visits[i] == Good(Named(i), inviter, at)
  }

  /** After n of them: ten are granted, and all are on record. */
  predicate AfterTurns(bonuses: seq<Bonus>, n: nat, inviter: string, at: int) {
    && (forall i :: 0 <= i < |bonuses| ==> |bonuses[i].invitee| < n)
    && EarnedSince(bonuses, inviter, at - MONTH) == Earned(bonuses, inviter, at, at) == (if n <= 10 then n else 10)
  }

  lemma OneMoreTurn(bonuses: seq<Bonus>, n: nat, inviter: string, at: int)
    requires AfterTurns(bonuses, n, inviter, at)
    ensures var v := Good(Named(n), inviter, at);
            AfterTurns(Settled(bonuses, v.invitee, v.facts, v.config, at), n + 1, inviter, at)
  {
    var v := Good(Named(n), inviter, at);
    assert !Claimed(bonuses, v.invitee);
    var row := RowFor(bonuses, v.invitee, v.facts, v.config, at).value;
    EarnedSnoc(bonuses, row, inviter, at, at);
    assert (bonuses + [row])[..|bonuses|] == bonuses;
  }

  lemma NoTurnYet(bonuses: seq<Bonus>, inviter: string, at: int)
    requires |bonuses| == 0
    ensures AfterTurns(bonuses, 0, inviter, at)
  {
  }

  lemma {:induction false} TurnsAreSettled(visits: seq<Visit>, inviter: string, at: int)
    requires InTurn(visits, inviter, at)
    ensures AfterTurns(Run(visits), |visits|, inviter, at)
    decreases |visits|
  {
    if |visits| == 0 {
      NoTurnYet(Run(visits), inviter, at);
    } else {
      var before := visits[..|visits| - 1];
      TurnsAreSettled(before, inviter, at);
      OneMoreTurn(Run(before), |before|, inviter, at);
    }
  }

  /** Settled in turn, exactly the first ten of any number are granted. */
  lemma CapIsMet(visits: seq<Visit>, inviter: string, at: int)
    requires InTurn(visits, inviter, at)
    ensures Earned(Run(visits), inviter, at, at) == if |visits| <= 10 then |visits| else 10
  {
    TurnsAreSettled(visits, inviter, at);
  }

  lemma OneMoreWaits(w: World, claim: Bonus, x: string, inviter: string, from: int, to: int)
    requires Counts(claim, inviter, from, to) && !Claimed(w.bonuses, claim.invitee)
    ensures var after := w.(claims := w.claims + [Some(claim)]);
            x in Waiting(after, inviter, from, to) <==> x in Waiting(w, inviter, from, to) || x == claim.invitee
  {
    var after := w.(claims := w.claims + [Some(claim)]);
    assert Waits(after, |w.claims|, inviter, from, to) && after.claims[|w.claims|].value.invitee == claim.invitee;
    if x in Waiting(w, inviter, from, to) {
      var i :| 0 <= i < |w.claims| && Waits(w, i, inviter, from, to) && w.claims[i].value.invitee == x;
      assert Waits(after, i, inviter, from, to) && after.claims[i].value.invitee == x;
    }
    if x in Waiting(after, inviter, from, to) {
      var i :| 0 <= i < |after.claims| && Waits(after, i, inviter, from, to) && after.claims[i].value.invitee == x;
      assert i < |w.claims| ==> Waits(w, i, inviter, from, to) && w.claims[i].value.invitee == x;
    }
  }

  /** One more of them looked at, with no bonus inserted yet, is one more due. */
  lemma LookingAddsOne(w: World, invitee: string, inviter: string, at: int, from: int, to: int)
    requires |w.bonuses| == 0 && invitee !in Waiting(w, inviter, from, to) && from <= at <= to
    ensures var after := Apply(w, Look(Good(invitee, inviter, at)));
      && after.bonuses == w.bonuses && Due(after, inviter, from, to) == Due(w, inviter, from, to) + 1
      && Waiting(after, inviter, from, to) == Waiting(w, inviter, from, to) + {invitee}
  {
    var claim := Bonus(invitee, inviter, GrantedBonus, 5, at);
    var after := Apply(w, Look(Good(invitee, inviter, at)));
    GoodIsGranted(w.bonuses, invitee, inviter, at);
    forall x ensures x in Waiting(after, inviter, from, to) <==> x in Waiting(w, inviter, from, to) || x == invitee {
      OneMoreWaits(w, claim, x, inviter, from, to);
    }
    assert Waiting(after, inviter, from, to) == Waiting(w, inviter, from, to) + {invitee};
  }

  lemma {:induction false} Joined(w: World, a: seq<Step>, b: seq<Step>)
    requires CanRun(w, a) && CanRun(After(w, a), b)
    ensures CanRun(w, a + b) && After(w, a + b) == After(After(w, a), b)
    decreases |a|
  {
    if a == [] {
      assert a + b == b;
    } else {
      Joined(Apply(w, a[0]), a[1..], b);
      assert (a + b)[1..] == a[1..] + b;
    }
  }

  lemma OneStep(w: World, step: Step)
    requires Enabled(w, step)
    ensures CanRun(w, [step]) && After(w, [step]) == Apply(w, step)
  {
    assert [step][1..] == [];
    assert CanRun(Apply(w, step), []);
  }

  lemma {:induction false} AllLookFirst(n: nat, inviter: string, at: int, from: int, to: int) returns (steps: seq<Step>)
    requires from <= at <= to
    ensures CanRun(EMPTY, steps) && |After(EMPTY, steps).bonuses| == 0
    ensures Due(After(EMPTY, steps), inviter, from, to) == n
    ensures forall x :: x in Waiting(After(EMPTY, steps), inviter, from, to) ==> |x| < n
  {
    steps := [];
    if n > 0 {
      var before := AllLookFirst(n - 1, inviter, at, from, to);
      var invitee := seq(n - 1, _ => 'x');
      var look := Look(Good(invitee, inviter, at));
      LookingAddsOne(After(EMPTY, before), invitee, inviter, at, from, to);
      OneStep(After(EMPTY, before), look);
      Joined(EMPTY, before, [look]);
      steps := before + [look];
    }
  }

  /** From an empty table: any number settled at once are all granted, in one moment. */
  lemma AnyNumberAtOnce(n: nat, inviter: string, at: int) returns (steps: seq<Step>)
    ensures CanRun(EMPTY, steps) && Earned(After(EMPTY, steps).bonuses, inviter, at, at) == n
  {
    var looked := AllLookFirst(n, inviter, at, at, at);
    var rest := AllDueCanHappen(After(EMPTY, looked), inviter, at, at);
    Joined(EMPTY, looked, rest);
    steps := looked + rest;
  }

  class InviteDesk {
    var bonuses: seq<Bonus>

    constructor ()
      ensures bonuses == []
    {
      bonuses := [];
    }

    method CountEarned(inviter: string, since: int) returns (n: nat)
      ensures n == EarnedSince(bonuses, inviter, since)
    {
      n := 0;
      var i := 0;
      while i < |bonuses|
        invariant 0 <= i <= |bonuses|
        invariant n == EarnedSince(bonuses[..i], inviter, since)
      {
        assert bonuses[..i + 1][..i] == bonuses[..i];
        if bonuses[i].inviter == inviter && bonuses[i].status == GrantedBonus && since <= bonuses[i].createdAt {
          n := n + 1;
        }
        i := i + 1;
      }
      assert bonuses[..i] == bonuses;
    }

    method FindClaim(invitee: string) returns (claimed: bool)
      ensures claimed == Claimed(bonuses, invitee)
    {
      var i := 0;
      while i < |bonuses|
        invariant 0 <= i <= |bonuses|
        invariant forall j :: 0 <= j < i ==> bonuses[j].invitee != invitee
      {
        if bonuses[i].invitee == invitee {
          return true;
        }
        i := i + 1;
      }
      return false;
    }

    /** Decides and claims in one go; the caller pays both sides when the row says granted. */
    method SettleInviteBonus(invitee: string, facts: Facts, config: Config, now: int) returns (row: Option<Bonus>)
      modifies this
      ensures bonuses == Settled(old(bonuses), invitee, facts, config, now)
      ensures row.Some? <==>
              && facts.invitedBy.Some? && facts.inviteeConfirmed && facts.inviterSince.Some?
              && forall i :: 0 <= i < |old(bonuses)| ==> old(bonuses)[i].invitee != invitee
      ensures row.Some? ==>
                var status := StatusFor(old(bonuses), facts, config, now);
                row.value == Bonus(invitee, facts.invitedBy.value, status,
                                   if status == GrantedBonus then config.inviteBonus else 0, now)
      ensures bonuses == if row.None? then old(bonuses) else old(bonuses) + [row.value]
    {
      if facts.invitedBy.None? {
        return None;
      }
      var already := FindClaim(invitee);
      if already || !facts.inviteeConfirmed || facts.inviterSince.None? {
        return None;
      }
      var status := GrantedBonus;
      if config.inviteBonus <= 0 {
        status := Disabled;
      } else if facts.disposable {
        status := DisposableDomain;
      } else if facts.sameMailbox {
        status := SameMailbox;
      } else if (now - facts.inviterSince.value) as real / 3600000.0 < config.inviterMinAgeHours {
        status := InviterTooNew;
      } else {
        var earned := CountEarned(facts.invitedBy.value, now - MONTH);
        if earned >= INVITER_MONTHLY_CAP {
          status := InviterCap;
        }
      }
      if status == GrantedBonus && (facts.inviteeOrg.None? || facts.inviterOrg.None?) {
        status := NoOrganization;
      }
      var prospects := if status == GrantedBonus then config.inviteBonus else 0;
      var claim := Bonus(invitee, facts.invitedBy.value, status, prospects, now);
      bonuses := bonuses + [claim];
      return Some(claim);
    }
  }
}
