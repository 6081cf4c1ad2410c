/**
 * One workspace's daily drafting from its content radars: products take turns,
 * longest waiting first, up to three a day.
 */
module ContentRadar {
  import opened Options
  import opened DailyQuota
  import opened Sequences
  import opened Sets

  const RADAR_DRAFTS_PER_DAY: nat := 3

  /** `drafts` when the radar is enabled and set to draft by itself; times are from the epoch on. */
  datatype Radar = Radar(drafts: bool, lastDraft: Option<nat>)

  datatype Turn = Turn(product: string, at: nat)

  /** `batches` the radar batches of this workspace, for whom and when; `turns` every turn stamped. */
  datatype Desk = Desk(radars: map<string, Radar>, batches: seq<Turn>, turns: seq<Turn>)

  function Times(batches: seq<Turn>): seq<int> {
    seq(|batches|, i requires 0 <= i < |batches| => batches[i].at)
  }

  lemma TimesSnoc(batches: seq<Turn>, b: Turn)
    ensures Times(batches + [b]) == Times(batches) + [b.at]
  {
  }

  predicate Due(radar: Radar, at: nat) {
    radar.drafts && (radar.lastDraft.None? || radar.lastDraft.value < DayOf(at))
  }

  /** A radar that never drafted sorts before every stamp. */
  function Waiting(radar: Radar): int {
    if radar.lastDraft.None? then -1 else radar.lastDraft.value
  }

  /** Some listing of the due radars by how long they have waited; ties fall in any order. */
  predicate IsDueOrder(radars: map<string, Radar>, order: seq<string>, at: nat) {
    && (forall i :: 0 <= i < |order| ==> order[i] in radars && Due(radars[order[i]], at))
    && (forall p :: p in radars && Due(radars[p], at) ==> p in order)
    && (forall i, j :: 0 <= i < j < |order| ==>
          order[i] != order[j] && Waiting(radars[order[i]]) <= Waiting(radars[order[j]]))
  }

  function Room(batches: seq<Turn>, at: nat): int {
    RADAR_DRAFTS_PER_DAY - CountSince(Times(batches), DayOf(at))
  }

  /** The batches written at a moment or later, by their places. */
  ghost function WrittenSince(batches: seq<Turn>, from: int): set<nat> {
    set i | 0 <= i < |batches| && batches[i].at >= from
  }

  lemma WrittenSnoc(batches: seq<Turn>, b: Turn, from: int)
    ensures WrittenSince(batches + [b], from) ==
            WrittenSince(batches, from) + (if b.at >= from then {|batches|} else {})
  {
    assert forall i :: 0 <= i < |batches| ==> (batches + [b])[i] == batches[i];
  }

  lemma OneMoreWritten(batches: seq<Turn>, b: Turn, from: int)
    requires CountSince(Times(batches), from) == |WrittenSince(batches, from)|
    ensures CountSince(Times(batches + [b]), from) == |WrittenSince(batches + [b], from)|
  {
    TimesSnoc(batches, b);
    CountSnoc(Times(batches), b.at, from, 0);
    WrittenSnoc(batches, b, from);
    assert |batches| !in WrittenSince(batches, from);
  }

  lemma {:induction false} CountIsWritten(batches: seq<Turn>, from: int)
    ensures CountSince(Times(batches), from) == |WrittenSince(batches, from)|
    decreases |batches|
  {
    if |batches| == 0 {
      assert WrittenSince(batches, from) == {};
    } else {
      CountIsWritten(batches[..|batches| - 1], from);
      OneMoreWritten(batches[..|batches| - 1], batches[|batches| - 1], from);
      assert batches == batches[..|batches| - 1] + [batches[|batches| - 1]];
    }
  }

  /** Three a day, less the batches written since UTC midnight. */
  lemma RoomIs(batches: seq<Turn>, at: nat)
    ensures Room(batches, at) == 3 - |WrittenSince(batches, at - at % 86_400_000)|
  {
    CountIsWritten(batches, DayOf(at));
  }

  /** The first `room` products of the order that have a reference to draft from. */
  function Picks(order: seq<string>, hasReference: string -> bool, room: nat): seq<string> {
    if order == [] || room == 0 then []
    else if hasReference(order[0]) then [order[0]] + Picks(order[1..], hasReference, room - 1)
    else Picks(order[1..], hasReference, room)
  }

  method DraftPicks(order: seq<string>, hasReference: string -> bool, batches: seq<Turn>, at: nat)
    returns (picks: seq<string>, ghost places: seq<nat>)
    ensures FirstOf(order, hasReference, if Room(batches, at) <= 0 then 0 else Room(batches, at), picks, places)
    ensures |places| == |picks| && forall k :: 0 <= k < |picks| ==> places[k] < |order| && picks[k] == order[places[k]]
    ensures forall k, l :: 0 <= k < l < |places| ==> places[k] < places[l]
    ensures picks == (if Room(batches, at) <= 0 then [] else Picks(order, hasReference, Room(batches, at)))
  {
    var room := Room(batches, at);
    picks, places := [], [];
    if room <= 0 {
      return;
    }
    var i := 0;
    while i < |order|
      invariant 0 <= i <= |order|
      invariant |picks| <= room
      invariant picks + Picks(order[i..], hasReference, room - |picks|) == Picks(order, hasReference, room)
    {
      if |picks| >= room {
        break;
      }
      if hasReference(order[i]) {
        picks := picks + [order[i]];
      }
      i := i + 1;
    }
    places := PicksAreFirst(order, hasReference, room);
  }

  /**
   * What drafting one pick came to: when its batch was written, if one was, and
   * when the turn was stamped, unless the process stopped first.
   */
  datatype Outcome = Outcome(batch: Option<nat>, stamped: Option<nat>)

  /** Success or not, the turn is spent. */
  function Drafted(desk: Desk, product: string, outcome: Outcome): Desk {
    Desk(
      if product in desk.radars && outcome.stamped.Some? then
        desk.radars[product := desk.radars[product].(lastDraft := outcome.stamped)]
      else desk.radars,
      if outcome.batch.Some? then desk.batches + [Turn(product, outcome.batch.value)] else desk.batches,
      if outcome.stamped.Some? then desk.turns + [Turn(product, outcome.stamped.value)] else desk.turns)
  }

  /** As far as the sweep got. */
  function AllDrafted(desk: Desk, picks: seq<string>, outcomes: seq<Outcome>): Desk
    requires |outcomes| <= |picks|
    decreases |outcomes|
  {
    if outcomes == [] then desk
    else Drafted(AllDrafted(desk, picks, outcomes[..|outcomes| - 1]), picks[|outcomes| - 1], outcomes[|outcomes| - 1])
  }

  /** One sweep: who was listed, who had a reference, and how each pick went. */
  datatype Sweep = Sweep(at: nat, order: seq<string>, hasReference: string -> bool, outcomes: seq<Outcome>)

  function PicksOf(desk: Desk, sweep: Sweep): seq<string> {
    if Room(desk.batches, sweep.at) <= 0 then []
    else Picks(sweep.order, sweep.hasReference, Room(desk.batches, sweep.at))
  }

  /** A stamp comes after its batch; only the pick a sweep stopped at has none. */
  predicate InTurn(outcomes: seq<Outcome>, at: nat) {
    forall i :: 0 <= i < |outcomes| ==>
      && (outcomes[i].batch.Some? ==> at <= outcomes[i].batch.value)
      && (outcomes[i].stamped.Some? ==> at <= outcomes[i].stamped.value)
      && (outcomes[i].batch.Some? && outcomes[i].stamped.Some? ==> outcomes[i].batch.value <= outcomes[i].stamped.value)
      && (outcomes[i].stamped.None? ==> i == |outcomes| - 1)
  }

  /** A sweep may stop at any pick, or inside one. */
  predicate Possible(desk: Desk, sweep: Sweep) {
    && IsDueOrder(desk.radars, sweep.order, sweep.at)
    && |sweep.outcomes| <= |PicksOf(desk, sweep)|
    && InTurn(sweep.outcomes, sweep.at)
  }

  function Swept(desk: Desk, sweep: Sweep): Desk
    requires |sweep.outcomes| <= |PicksOf(desk, sweep)|
  {
    AllDrafted(desk, PicksOf(desk, sweep), sweep.outcomes)
  }

  // ------------------------------------------------------------------- picks

  lemma {:induction false} PicksFacts(order: seq<string>, hasReference: string -> bool, room: nat)
    ensures var picks := Picks(order, hasReference, room);
      && |picks| <= room
      && (forall p :: p in picks ==> p in order && hasReference(p))
    decreases |order|
  {
    if order != [] && room > 0 {
      assert order == [order[0]] + order[1..];
      PicksFacts(order[1..], hasReference, if hasReference(order[0]) then room - 1 else room);
    }
  }

  lemma {:induction false} PicksAreDistinct(order: seq<string>, hasReference: string -> bool, room: nat)
    requires Distinct(order)
    ensures Distinct(Picks(order, hasReference, room))
    decreases |order|
  {
    if order != [] && room > 0 {
      var rest := if hasReference(order[0]) then room - 1 else room;
      PicksAreDistinct(order[1..], hasReference, rest);
      PicksFacts(order[1..], hasReference, rest);
      assert order[0] !in order[1..];
    }
  }

  /**
   * The picks of an order, told without saying how they are made: `at` says where
   * each stands. They have references and keep the order; whoever else has one
   * was passed over only because the picks were full, and all of them come before.
   */
  ghost predicate FirstOf(order: seq<string>, hasReference: string -> bool, room: nat, picks: seq<string>,
          at: seq<nat>) {
    && TakenAt(picks, order, at) && |picks| <= room
    && (forall k :: 0 <= k < |picks| ==> hasReference(picks[k]))
    && (forall i :: 0 <= i < |order| && hasReference(order[i]) && i !in at ==>
          |picks| == room && forall k :: 0 <= k < |at| ==> at[k] < i)
  }

  lemma OneEarlier(order: seq<string>, hasReference: string -> bool, room: nat, rest: seq<string>, at: seq<nat>)
    requires order != [] && room > 0
    requires FirstOf(order[1..], hasReference, if hasReference(order[0]) then room - 1 else room, rest, at)
    ensures if hasReference(order[0]) then FirstOf(order, hasReference, room, [order[0]] + rest, [0] + Later(at))
            else FirstOf(order, hasReference, room, rest, Later(at))
  {
    TakenLater(rest, order, at);
    forall i | 0 < i < |order| && hasReference(order[i]) && i - 1 !in at
      ensures |rest| == (if hasReference(order[0]) then room - 1 else room)
      ensures forall k :: 0 <= k < |at| ==> at[k] + 1 < i
    {
      assert order[1..][i - 1] == order[i];
    }
    forall i | 0 <= i < |order|
      ensures i in Later(at) <==> i > 0 && i - 1 in at
      ensures i in [0] + Later(at) <==> i == 0 || i - 1 in at
    {
      InLater(at, i);
    }
  }

  lemma {:induction false} PicksAreFirst(order: seq<string>, hasReference: string -> bool, room: nat)
    returns (at: seq<nat>)
    ensures FirstOf(order, hasReference, room, Picks(order, hasReference, room), at)
    decreases |order|
  {
    at := [];
    if order != [] && room > 0 {
      var left := if hasReference(order[0]) then room - 1 else room;
      var earlier := PicksAreFirst(order[1..], hasReference, left);
      OneEarlier(order, hasReference, room, Picks(order[1..], hasReference, left), earlier);
      at := if hasReference(order[0]) then [0] + Later(earlier) else Later(earlier);
    }
  }

  // --------------------------------------------------------------- the quota

  lemma {:induction false} DraftingKeepsTheCap(desk: Desk, picks: seq<string>, outcomes: seq<Outcome>, at: nat,
          room: nat, day: int)
    requires |outcomes| <= |picks| && |outcomes| <= room
    requires CountSince(Times(desk.batches), DayOf(at)) + room <= RADAR_DRAFTS_PER_DAY
    requires CountOn(Times(desk.batches), day) <= RADAR_DRAFTS_PER_DAY
    requires forall i :: 0 <= i < |outcomes| && outcomes[i].batch.Some? ==> at <= outcomes[i].batch.value
    ensures var after := Times(AllDrafted(desk, picks, outcomes).batches);
      && CountOn(after, day) <= RADAR_DRAFTS_PER_DAY
      && CountSince(after, DayOf(at)) + (room - |outcomes|) <= RADAR_DRAFTS_PER_DAY
    decreases |outcomes|
  {
    if outcomes != [] {
      var n := |outcomes| - 1;
      DraftingKeepsTheCap(desk, picks, outcomes[..n], at, room, day);
      if outcomes[n].batch.Some? {
        var before := AllDrafted(desk, picks, outcomes[..n]).batches;
        TimesSnoc(before, Turn(picks[n], outcomes[n].batch.value));
        WritingKeepsTheCap(Times(before), at, outcomes[n].batch.value, room - n, RADAR_DRAFTS_PER_DAY, day);
      }
    }
  }

  // ---------------------------------------------------------------- one turn

  predicate EarlierDay(a: Turn, b: Turn) {
    a.product == b.product ==> a.at / DAY < b.at / DAY
  }

  /** Its radar was stamped when it happened, or later. */
  predicate Stamped(turn: Turn, radars: map<string, Radar>) {
    && turn.product in radars && radars[turn.product].lastDraft.Some?
    && turn.at <= radars[turn.product].lastDraft.value
  }

  /** What happened to a product was on a new day each time, and never after what its radar says. */
  predicate OnceADay(turns: seq<Turn>, radars: map<string, Radar>) {
    && (forall i, j :: 0 <= i < j < |turns| ==> EarlierDay(turns[i], turns[j]))
    && (forall i :: 0 <= i < |turns| ==> Stamped(turns[i], radars))
  }

  /** A due product's stamp leaves everything stamped. */
  lemma StampingKeeps(turn: Turn, radars: map<string, Radar>, product: string, at: nat, stamp: nat)
    requires Stamped(turn, radars) && product in radars && Due(radars[product], at) && at <= stamp
    ensures Stamped(turn, radars[product := radars[product].(lastDraft := Some(stamp))])
    ensures turn.product == product ==> turn.at / DAY < at / DAY
  {
  }

  lemma OnceMore(turns: seq<Turn>, radars: map<string, Radar>, product: string, at: nat, t: nat, stamp: nat)
    requires OnceADay(turns, radars) && product in radars && Due(radars[product], at) && at <= t <= stamp
    ensures var after := radars[product := radars[product].(lastDraft := Some(stamp))];
            OnceADay(turns, after) && OnceADay(turns + [Turn(product, t)], after)
  {
    var after := radars[product := radars[product].(lastDraft := Some(stamp))];
    forall i | 0 <= i < |turns| ensures Stamped(turns[i], after) && EarlierDay(turns[i], Turn(product, t)) {
      StampingKeeps(turns[i], radars, product, at, stamp);
    }
  }

  lemma OneTurnKeeps(desk: Desk, product: string, outcome: Outcome, at: nat)
    requires OnceADay(desk.turns, desk.radars) && product in desk.radars && Due(desk.radars[product], at)
    requires outcome.stamped.Some? ==> at <= outcome.stamped.value
    ensures var after := Drafted(desk, product, outcome);
            OnceADay(after.turns, after.radars)
  {
    if outcome.stamped.Some? {
      OnceMore(desk.turns, desk.radars, product, at, outcome.stamped.value, outcome.stamped.value);
    }
  }

  lemma {:induction false} OthersAreLeft(desk: Desk, picks: seq<string>, outcomes: seq<Outcome>, p: string)
    requires |outcomes| <= |picks| && p in desk.radars && p !in picks[..|outcomes|]
    ensures p in AllDrafted(desk, picks, outcomes).radars
    ensures AllDrafted(desk, picks, outcomes).radars[p] == desk.radars[p]
    decreases |outcomes|
  {
    if outcomes != [] {
      var n := |outcomes| - 1;
      assert picks[..n + 1] == picks[..n] + [picks[n]];
      OthersAreLeft(desk, picks, outcomes[..n], p);
    }
  }

  predicate AllDue(desk: Desk, picks: seq<string>, at: nat) {
    Distinct(picks) && forall i :: 0 <= i < |picks| ==> picks[i] in desk.radars && Due(desk.radars[picks[i]], at)
  }

  /** What was drafted before leaves the next pick due. */
  lemma NextIsDue(desk: Desk, picks: seq<string>, outcomes: seq<Outcome>, at: nat)
    requires |outcomes| < |picks| && AllDue(desk, picks, at)
    ensures var before, product := AllDrafted(desk, picks, outcomes), picks[|outcomes|];
            product in before.radars && Due(before.radars[product], at)
  {
    OthersAreLeft(desk, picks, outcomes, picks[|outcomes|]);
  }

  lemma {:induction false} DraftingKeepsTurns(desk: Desk, picks: seq<string>, outcomes: seq<Outcome>, at: nat)
    requires OnceADay(desk.turns, desk.radars) && |outcomes| <= |picks| && AllDue(desk, picks, at)
    requires forall i :: 0 <= i < |outcomes| && outcomes[i].stamped.Some? ==> at <= outcomes[i].stamped.value
    ensures var after := AllDrafted(desk, picks, outcomes);
            OnceADay(after.turns, after.radars)
    decreases |outcomes|
  {
    if outcomes != [] {
      var n := |outcomes| - 1;
      DraftingKeepsTurns(desk, picks, outcomes[..n], at);
      NextIsDue(desk, picks, outcomes[..n], at);
      OneTurnKeeps(AllDrafted(desk, picks, outcomes[..n]), picks[n], outcomes[n], at);
    }
  }

  // ---------------------------------------------------------- one batch a day

  /** A batch comes no earlier than its sweep began, and its turn is stamped no earlier than it. */
  predicate StampFollows(outcome: Outcome, at: nat) {
    && outcome.stamped.Some? && at <= outcome.stamped.value
    && (outcome.batch.Some? ==> at <= outcome.batch.value <= outcome.stamped.value)
  }

  lemma OneBatchKeeps(desk: Desk, product: string, outcome: Outcome, at: nat)
    requires OnceADay(desk.batches, desk.radars) && product in desk.radars && Due(desk.radars[product], at)
    requires StampFollows(outcome, at)
    ensures var after := Drafted(desk, product, outcome);
            OnceADay(after.batches, after.radars)
  {
    OnceMore(desk.batches, desk.radars, product, at,
             if outcome.batch.Some? then outcome.batch.value else outcome.stamped.value, outcome.stamped.value);
  }

  lemma {:induction false} DraftingKeepsBatches(desk: Desk, picks: seq<string>, outcomes: seq<Outcome>, at: nat)
    requires OnceADay(desk.batches, desk.radars) && |outcomes| <= |picks| && AllDue(desk, picks, at)
    requires forall i :: 0 <= i < |outcomes| ==> StampFollows(outcomes[i], at)
    ensures var after := AllDrafted(desk, picks, outcomes);
            OnceADay(after.batches, after.radars)
    decreases |outcomes|
  {
    if outcomes != [] {
      var n := |outcomes| - 1;
      DraftingKeepsBatches(desk, picks, outcomes[..n], at);
      NextIsDue(desk, picks, outcomes[..n], at);
      OneBatchKeeps(AllDrafted(desk, picks, outcomes[..n]), picks[n], outcomes[n], at);
    }
  }

  /**
   * Later on the day a pick was drafted its product is due again exactly when the
   * sweep stopped before stamping its turn.
   */
  lemma DueAgainIff(desk: Desk, product: string, outcome: Outcome, at: nat, later: nat)
    requires product in desk.radars && Due(desk.radars[product], at) && at <= later
    requires outcome.stamped.Some? ==> DayOf(later) <= outcome.stamped.value
    ensures Due(Drafted(desk, product, outcome).radars[product], later) <==> outcome.stamped.None?
  {
  }

  // --------------------------------------------------------------- every run

  datatype Step = Sweeping(sweep: Sweep) | Configure(product: string, drafts: bool)

  predicate Enabled(desk: Desk, step: Step) {
    step.Sweeping? ==> Possible(desk, step.sweep)
  }

  /** Settings are changed by hand at any time; a new product starts with no turn taken. */
  function Apply(desk: Desk, step: Step): Desk
    requires Enabled(desk, step)
  {
    match step
    case Sweeping(sweep) => Swept(desk, sweep)
    case Configure(product, drafts) =>
      var last := if product in desk.radars then desk.radars[product].lastDraft else None;
      desk.(radars := desk.radars[product := Radar(drafts, last)])
  }

  predicate CanRun(desk: Desk, steps: seq<Step>)
    decreases |steps|
  {
    steps == [] || (Enabled(desk, steps[0]) && CanRun(Apply(desk, steps[0]), steps[1..]))
  }

  function Run(desk: Desk, steps: seq<Step>): Desk
    requires CanRun(desk, steps)
    decreases |steps|
  {
    if steps == [] then desk else Run(Apply(desk, steps[0]), steps[1..])
  }

  lemma PicksAreDue(desk: Desk, sweep: Sweep)
    requires Possible(desk, sweep)
    ensures AllDue(desk, PicksOf(desk, sweep), sweep.at)
    ensures |PicksOf(desk, sweep)| <= if Room(desk.batches, sweep.at) <= 0 then 0 else Room(desk.batches, sweep.at)
  {
    if Room(desk.batches, sweep.at) > 0 {
      PicksFacts(sweep.order, sweep.hasReference, Room(desk.batches, sweep.at));
      PicksAreDistinct(sweep.order, sweep.hasReference, Room(desk.batches, sweep.at));
      forall i | 0 <= i < |PicksOf(desk, sweep)| ensures PicksOf(desk, sweep)[i] in sweep.order {
        assert PicksOf(desk, sweep)[i] in PicksOf(desk, sweep);
      }
    }
  }

  lemma SweepKeeps(desk: Desk, sweep: Sweep, day: int)
    requires Possible(desk, sweep) && OnceADay(desk.turns, desk.radars)
    requires CountOn(Times(desk.batches), day) <= RADAR_DRAFTS_PER_DAY
    ensures OnceADay(Swept(desk, sweep).turns, Swept(desk, sweep).radars)
    ensures CountOn(Times(Swept(desk, sweep).batches), day) <= RADAR_DRAFTS_PER_DAY
  {
    var picks := PicksOf(desk, sweep);
    PicksAreDue(desk, sweep);
    DraftingKeepsTurns(desk, picks, sweep.outcomes, sweep.at);
    if Room(desk.batches, sweep.at) > 0 {
      DraftingKeepsTheCap(desk, picks, sweep.outcomes, sweep.at, Room(desk.batches, sweep.at), day);
    }
  }

  lemma StepKeeps(desk: Desk, step: Step, day: int)
    requires Enabled(desk, step) && OnceADay(desk.turns, desk.radars)
    requires CountOn(Times(desk.batches), day) <= RADAR_DRAFTS_PER_DAY
    ensures OnceADay(Apply(desk, step).turns, Apply(desk, step).radars)
    ensures CountOn(Times(Apply(desk, step).batches), day) <= RADAR_DRAFTS_PER_DAY
  {
    if step.Sweeping? {
      SweepKeeps(desk, step.sweep, day);
    }
  }

  lemma {:induction false} RunKeeps(desk: Desk, steps: seq<Step>, day: int)
    requires CanRun(desk, steps) && OnceADay(desk.turns, desk.radars)
    requires CountOn(Times(desk.batches), day) <= RADAR_DRAFTS_PER_DAY
    ensures OnceADay(Run(desk, steps).turns, Run(desk, steps).radars)
    ensures CountOn(Times(Run(desk, steps).batches), day) <= RADAR_DRAFTS_PER_DAY
    decreases |steps|
  {
    if steps != [] {
      StepKeeps(desk, steps[0], day);
      RunKeeps(Apply(desk, steps[0]), steps[1..], day);
    }
  }

  /**
   * However often it sweeps, wherever a sweep stops, and whichever midnight it
   * runs past: three batches a day, and a turn a day for each product.
   */
  lemma ThreeADayOneTurnEach(radars: map<string, Radar>, steps: seq<Step>, day: int)
    requires CanRun(Desk(radars, [], []), steps)
    ensures var end := Run(Desk(radars, [], []), steps);
      && CountOn(Times(end.batches), day) <= 3
      && forall i, j :: 0 <= i < j < |end.turns| && end.turns[i].product == end.turns[j].product ==>
            end.turns[i].at / DAY != end.turns[j].at / DAY
  {
    RunKeeps(Desk(radars, [], []), steps, day);
  }

  // ------------------------------------------------------- what is on record

  /** When a radar last drafted is a turn on record. */
  predicate StampsAreTurns(desk: Desk) {
    forall p :: p in desk.radars && desk.radars[p].lastDraft.Some? ==>
      Turn(p, desk.radars[p].lastDraft.value) in desk.turns
  }

  lemma DraftedIsOnRecord(desk: Desk, product: string, outcome: Outcome)
    requires StampsAreTurns(desk)
    ensures StampsAreTurns(Drafted(desk, product, outcome))
  {
  }

  lemma {:induction false} AllDraftedIsOnRecord(desk: Desk, picks: seq<string>, outcomes: seq<Outcome>)
    requires StampsAreTurns(desk) && |outcomes| <= |picks|
    ensures StampsAreTurns(AllDrafted(desk, picks, outcomes))
    decreases |outcomes|
  {
    if |outcomes| > 0 {
      var n := |outcomes| - 1;
      AllDraftedIsOnRecord(desk, picks, outcomes[..n]);
      DraftedIsOnRecord(AllDrafted(desk, picks, outcomes[..n]), picks[n], outcomes[n]);
    }
  }

  lemma StepIsOnRecord(desk: Desk, step: Step)
    requires StampsAreTurns(desk) && Enabled(desk, step)
    ensures StampsAreTurns(Apply(desk, step))
  {
    match step
    case Sweeping(sweep) => AllDraftedIsOnRecord(desk, PicksOf(desk, sweep), sweep.outcomes);
    case Configure(_, _) =>
  }

  /** Over every run from radars that never drafted, each stamp is of a turn taken. */
  lemma {:induction false} EveryStampIsATurn(desk: Desk, steps: seq<Step>)
    requires StampsAreTurns(desk) && CanRun(desk, steps)
    ensures forall p :: p in Run(desk, steps).radars && Run(desk, steps).radars[p].lastDraft.Some? ==>
              Turn(p, Run(desk, steps).radars[p].lastDraft.value) in Run(desk, steps).turns
    decreases |steps|
  {
    if |steps| > 0 {
      StepIsOnRecord(desk, steps[0]);
      EveryStampIsATurn(Apply(desk, steps[0]), steps[1..]);
    }
  }

  /** The batches that drafting some picks adds are those picks' own. */
  lemma {:induction false} NewBatchesArePicks(desk: Desk, picks: seq<string>, outcomes: seq<Outcome>, i: nat)
    requires |outcomes| <= |picks| && |desk.batches| <= i < |AllDrafted(desk, picks, outcomes).batches|
    ensures exists k :: 0 <= k < |outcomes| && AllDrafted(desk, picks, outcomes).batches[i].product == picks[k]
    decreases |outcomes|
  {
    if |outcomes| > 0 {
      var n := |outcomes| - 1;
      var before := AllDrafted(desk, picks, outcomes[..n]);
      if i < |before.batches| {
        NewBatchesArePicks(desk, picks, outcomes[..n], i);
      } else {
        assert AllDrafted(desk, picks, outcomes).batches[i].product == picks[n];
      }
    }
  }

  /** A sweep drafts only products that draft by themselves, took no turn since UTC midnight, and have a reference. */
  lemma OnlyTheDueAreDrafted(desk: Desk, sweep: Sweep, i: nat)
    requires Possible(desk, sweep) && |desk.batches| <= i < |Swept(desk, sweep).batches|
    ensures var p := Swept(desk, sweep).batches[i].product;
      && p in desk.radars && desk.radars[p].drafts && sweep.hasReference(p)
      && (desk.radars[p].lastDraft.Some? ==> desk.radars[p].lastDraft.value < sweep.at - sweep.at % 86_400_000)
  {
    var picks := PicksOf(desk, sweep);
    NewBatchesArePicks(desk, picks, sweep.outcomes, i);
    var k :| 0 <= k < |sweep.outcomes| && Swept(desk, sweep).batches[i].product == picks[k];
    assert picks[k] in picks;
    PicksFacts(sweep.order, sweep.hasReference, Room(desk.batches, sweep.at));
  }

  // ------------------------------------------------------- an order to sweep in

  lemma {:induction false} LongestWaiting(radars: map<string, Radar>, among: set<string>) returns (last: string)
    requires among != {} && forall p :: p in among ==> p in radars
    ensures last in among && forall p :: p in among ==> Waiting(radars[p]) <= Waiting(radars[last])
    decreases |among|
  {
    last :| last in among;
    if among != {last} {
      var other := LongestWaiting(radars, among - {last});
      if Waiting(radars[other]) > Waiting(radars[last]) {
        last := other;
      }
    }
  }

  lemma {:induction false} InOrder(radars: map<string, Radar>, among: set<string>) returns (order: seq<string>)
    requires forall p :: p in among ==> p in radars
    ensures forall p :: p in order <==> p in among
    ensures forall i, j :: 0 <= i < j < |order| ==>
              order[i] != order[j] && Waiting(radars[order[i]]) <= Waiting(radars[order[j]])
    decreases |among|
  {
    order := [];
    if among != {} {
      var last := LongestWaiting(radars, among);
      var before := InOrder(radars, among - {last});
      order := before + [last];
      assert forall i :: 0 <= i < |before| ==> before[i] in before;
    }
  }

  /** Whatever the radars, ties included, there is an order for the sweep to take. */
  lemma SomeOrderIsDue(radars: map<string, Radar>, at: nat) returns (order: seq<string>)
    ensures IsDueOrder(radars, order, at)
  {
    order := InOrder(radars, set p | p in radars && Due(radars[p], at));
    assert forall i :: 0 <= i < |order| ==> order[i] in order;
  }

  /** No sweep of the run stops inside a pick. */
  predicate EveryTurnStamped(steps: seq<Step>) {
    forall k :: 0 <= k < |steps| && steps[k].Sweeping? ==>
      forall i :: 0 <= i < |steps[k].sweep.outcomes| ==> steps[k].sweep.outcomes[i].stamped.Some?
  }

  lemma {:induction false} RunKeepsBatches(desk: Desk, steps: seq<Step>)
    requires CanRun(desk, steps) && OnceADay(desk.batches, desk.radars) && EveryTurnStamped(steps)
    ensures OnceADay(Run(desk, steps).batches, Run(desk, steps).radars)
    decreases |steps|
  {
    if steps != [] {
      if steps[0].Sweeping? {
        var sweep := steps[0].sweep;
        PicksAreDue(desk, sweep);
        DraftingKeepsBatches(desk, PicksOf(desk, sweep), sweep.outcomes, sweep.at);
      }
      RunKeepsBatches(Apply(desk, steps[0]), steps[1..]);
    }
  }

  /** While every turn drafted is stamped, no product is drafted twice on one day. */
  lemma OneBatchADayEach(radars: map<string, Radar>, steps: seq<Step>)
    requires CanRun(Desk(radars, [], []), steps) && EveryTurnStamped(steps)
    ensures var batches := Run(Desk(radars, [], []), steps).batches;
            forall i, j :: 0 <= i < j < |batches| && batches[i].product == batches[j].product ==>
              batches[i].at / DAY != batches[j].at / DAY
  {
    RunKeepsBatches(Desk(radars, [], []), steps);
  }

  /** With one product, a sweep that has room drafts it. */
  lemma OnlyOne(desk: Desk, sweep: Sweep)
    requires sweep.order == ["p"] && sweep.hasReference("p") && |sweep.outcomes| == 1
    requires Room(desk.batches, sweep.at) > 0
    ensures PicksOf(desk, sweep) == ["p"] && Swept(desk, sweep) == Drafted(desk, "p", sweep.outcomes[0])
  {
    assert sweep.order[1..] == [];
    assert sweep.outcomes[..0] == [];
    assert AllDrafted(desk, ["p"], sweep.outcomes[..0]) == desk;
  }

  lemma TwoSteps(desk: Desk, a: Step, b: Step)
    requires Enabled(desk, a) && Enabled(Apply(desk, a), b)
    ensures CanRun(desk, [a, b]) && Run(desk, [a, b]) == Apply(Apply(desk, a), b)
  {
    assert [a, b][1..] == [b] && [b][1..] == [];
    assert CanRun(Apply(Apply(desk, a), b), []);
    assert Run(Apply(desk, a), [b]) == Run(Apply(Apply(desk, a), b), []);
  }

  lemma RoomAfterOne(at: nat)
    requires at < DAY
    ensures Room([], at) == 3 && Room([Turn("p", 0)], at) == 2
  {
    assert Times([]) == [] && Times([Turn("p", 0)]) == [0];
    CountSnoc([], 0, DayOf(at), 0);
    assert [] + [0] == [0];
  }

  /**
   * A sweep that stops between writing a batch and stamping the turn, and another
   * the same day: one product, two batches.
   */
  lemma AStopDraftsTwice(stopped: Sweep, again: Sweep)
    requires stopped.at == 0 && again.at == 1 && stopped.order == again.order == ["p"]
    requires stopped.hasReference("p") && again.hasReference("p")
    requires stopped.outcomes == [Outcome(Some(0), None)] && again.outcomes == [Outcome(Some(1), Some(1))]
    ensures var desk := Desk(map["p" := Radar(true, None)], [], []);
      && CanRun(desk, [Sweeping(stopped), Sweeping(again)])
      && Run(desk, [Sweeping(stopped), Sweeping(again)]).batches == [Turn("p", 0), Turn("p", 1)]
  {
    var desk := Desk(map["p" := Radar(true, None)], [], []);
    var mid := Desk(desk.radars, [Turn("p", 0)], []);
    RoomAfterOne(0);
    RoomAfterOne(1);
    OnlyOne(desk, stopped);
    OnlyOne(mid, again);
    assert Drafted(desk, "p", stopped.outcomes[0]) == mid;
    TwoSteps(desk, Sweeping(stopped), Sweeping(again));
  }

  // ---------------------------------------------------------------- fairness

  /** The other products that come before this one, or might. */
  function Ahead(radars: map<string, Radar>, product: string): set<string>
    requires product in radars
  {
    set q | q in radars && q != product && Waiting(radars[q]) <= Waiting(radars[product])
  }

  lemma {:induction false} DraftedRadars(desk: Desk, picks: seq<string>, outcomes: seq<Outcome>, at: nat)
    requires |outcomes| <= |picks| && forall i :: 0 <= i < |picks| ==> picks[i] in desk.radars
    requires forall i :: 0 <= i < |outcomes| ==> outcomes[i].stamped.Some? && at <= outcomes[i].stamped.value
    ensures var after := AllDrafted(desk, picks, outcomes).radars;
      && after.Keys == desk.radars.Keys
      && (forall p :: p in desk.radars ==> after[p].drafts == desk.radars[p].drafts)
      && (forall p :: p in desk.radars && p !in picks[..|outcomes|] ==> after[p] == desk.radars[p])
      && (forall p :: p in picks[..|outcomes|] ==> Waiting(after[p]) >= at)
    decreases |outcomes|
  {
    if outcomes != [] {
      var n := |outcomes| - 1;
      assert picks[..n + 1] == picks[..n] + [picks[n]];
      DraftedRadars(desk, picks, outcomes[..n], at);
    }
  }

  /** Nobody has been drafted on this day or later. */
  predicate Rested(desk: Desk, day: nat) {
    && (forall p :: p in desk.radars ==> Waiting(desk.radars[p]) < day * DAY)
    && CountSince(Times(desk.batches), day * DAY) == 0
  }

  /** A sweep that tries all its picks and starts and ends on one day. */
  predicate DailySweep(desk: Desk, sweep: Sweep) {
    && Possible(desk, sweep) && |sweep.outcomes| == |PicksOf(desk, sweep)|
    && (forall i :: 0 <= i < |sweep.outcomes| ==>
          && sweep.outcomes[i].stamped.Some? && sweep.outcomes[i].stamped.value / DAY == sweep.at / DAY
          && (sweep.outcomes[i].batch.Some? ==> sweep.outcomes[i].batch.value / DAY == sweep.at / DAY))
  }

  lemma ThreeGoBehind(before: map<string, Radar>, after: map<string, Radar>, product: string, three: set<string>)
    requires product in before && after.Keys == before.Keys && product !in three
    requires three <= Ahead(before, product) && |three| == 3
    requires forall q :: q in before && q !in three ==> after[q] == before[q]
    requires forall q :: q in three ==> Waiting(after[q]) > Waiting(before[product])
    ensures |Ahead(after, product)| + 3 <= |Ahead(before, product)|
  {
    assert Ahead(after, product) <= Ahead(before, product) - three;
    SubsetIsSmaller(Ahead(after, product), Ahead(before, product) - three);
  }

  /** A product that drafts and has a reference, and was still not picked. */
  predicate PassedBy(desk: Desk, sweep: Sweep, product: string) {
    && product in desk.radars && desk.radars[product].drafts && sweep.hasReference(product)
    && product !in PicksOf(desk, sweep)
  }

  lemma PickedAhead(radars: map<string, Radar>, sweep: Sweep, picks: seq<string>, at: seq<nat>, i: nat)
    requires IsDueOrder(radars, sweep.order, sweep.at)
    requires FirstOf(sweep.order, sweep.hasReference, 3, picks, at)
    requires i < |sweep.order| && sweep.hasReference(sweep.order[i]) && i !in at
    ensures |picks| == 3
    ensures forall k :: 0 <= k < 3 ==>
              && picks[k] in radars && picks[k] != sweep.order[i]
              && Waiting(radars[picks[k]]) <= Waiting(radars[sweep.order[i]])
  {
    forall k | 0 <= k < 3
      ensures picks[k] in radars && picks[k] != sweep.order[i]
      ensures Waiting(radars[picks[k]]) <= Waiting(radars[sweep.order[i]])
    {
      assert picks[k] == sweep.order[at[k]] && at[k] < i;
    }
  }

  lemma NotAtAll(picks: seq<string>, order: seq<string>, at: seq<nat>, i: nat)
    requires TakenAt(picks, order, at) && i < |order| && order[i] !in picks
    ensures i !in at
  {
    TakenIsPart(picks, order, at, i);
  }

  lemma FirstThreeAhead(radars: map<string, Radar>, sweep: Sweep, product: string)
    requires IsDueOrder(radars, sweep.order, sweep.at) && product in radars && Due(radars[product], sweep.at)
    requires sweep.hasReference(product) && product !in Picks(sweep.order, sweep.hasReference, 3)
    ensures var picks := Picks(sweep.order, sweep.hasReference, 3);
      && |picks| == 3
      && forall k :: 0 <= k < 3 ==>
           && picks[k] in radars && picks[k] != product && Waiting(radars[picks[k]]) <= Waiting(radars[product])
  {
    var picks := Picks(sweep.order, sweep.hasReference, 3);
    var at := PicksAreFirst(sweep.order, sweep.hasReference, 3);
    assert product in sweep.order;
    var i :| 0 <= i < |sweep.order| && sweep.order[i] == product;
    NotAtAll(picks, sweep.order, at, i);
    PickedAhead(radars, sweep, picks, at, i);
  }

  /** If somebody with a reference was not picked, three were, and all three had waited at least as long. */
  lemma ThreeWerePicked(desk: Desk, sweep: Sweep, day: nat, product: string)
    requires Rested(desk, day) && DailySweep(desk, sweep) && day <= sweep.at / DAY && PassedBy(desk, sweep, product)
    ensures |PicksOf(desk, sweep)| == 3
    ensures forall k :: 0 <= k < 3 ==>
              && PicksOf(desk, sweep)[k] in desk.radars && PicksOf(desk, sweep)[k] != product
              && Waiting(desk.radars[PicksOf(desk, sweep)[k]]) <= Waiting(desk.radars[product])
  {
    CountFalls(Times(desk.batches), day * DAY, DayOf(sweep.at));
    assert PicksOf(desk, sweep) == Picks(sweep.order, sweep.hasReference, 3);
    assert Due(desk.radars[product], sweep.at);
    FirstThreeAhead(desk.radars, sweep, product);
  }

  lemma AtLeastThree(a: string, b: string, c: string)
    requires a != b && a != c && b != c
    ensures |{a, b, c}| == 3
  {
    assert {a, b, c} == {a} + {b} + {c};
  }

  lemma SweptRadars(desk: Desk, sweep: Sweep, day: nat)
    requires Rested(desk, day) && DailySweep(desk, sweep) && day <= sweep.at / DAY
    ensures var after := Swept(desk, sweep).radars;
      && after.Keys == desk.radars.Keys
      && (forall p :: p in desk.radars ==> after[p].drafts == desk.radars[p].drafts)
      && (forall p :: p in desk.radars && p !in PicksOf(desk, sweep) ==> after[p] == desk.radars[p])
      && (forall p :: p in PicksOf(desk, sweep) ==> p in after && Waiting(after[p]) >= day * DAY)
  {
    var picks := PicksOf(desk, sweep);
    PicksAreDue(desk, sweep);
    DraftedRadars(desk, picks, sweep.outcomes, sweep.at);
    assert picks[..|sweep.outcomes|] == picks;
    forall p | p in picks ensures p in desk.radars {
      var i :| 0 <= i < |picks| && picks[i] == p;
    }
  }

  /** A product passed over sees three of those before it go behind it. */
  lemma PassedOverMovesUp(desk: Desk, sweep: Sweep, day: nat, product: string)
    requires Rested(desk, day) && DailySweep(desk, sweep) && day <= sweep.at / DAY
    requires PassedBy(desk, sweep, product)
    ensures product in Swept(desk, sweep).radars && Swept(desk, sweep).radars.Keys == desk.radars.Keys
    ensures |Ahead(Swept(desk, sweep).radars, product)| + 3 <= |Ahead(desk.radars, product)|
  {
    ThreeWerePicked(desk, sweep, day, product);
    SweptRadars(desk, sweep, day);
    PicksAreDue(desk, sweep);
    ThreeAhead(desk.radars, Swept(desk, sweep).radars, PicksOf(desk, sweep), day * DAY, product);
  }

  lemma ThreeAhead(before: map<string, Radar>, after: map<string, Radar>, picks: seq<string>, from: int,
          product: string)
    requires |picks| == 3 && Distinct(picks)
    requires product in before && product !in picks && Waiting(before[product]) < from
    requires forall k :: 0 <= k < 3 ==> picks[k] in before && Waiting(before[picks[k]]) <= Waiting(before[product])
    requires after.Keys == before.Keys
    requires forall p :: p in before && p !in picks ==> after[p] == before[p]
    requires forall p :: p in picks ==> p in after && Waiting(after[p]) >= from
    ensures |Ahead(after, product)| + 3 <= |Ahead(before, product)|
  {
    var three := {picks[0], picks[1], picks[2]};
    AtLeastThree(picks[0], picks[1], picks[2]);
    assert forall q :: q in three <==> q in picks;
    ThreeGoBehind(before, after, product, three);
  }

  lemma {:induction false} BatchesStayOnTheDay(desk: Desk, picks: seq<string>, outcomes: seq<Outcome>, next: int)
    requires |outcomes| <= |picks| && CountSince(Times(desk.batches), next) == 0
    requires forall i :: 0 <= i < |outcomes| && outcomes[i].batch.Some? ==> outcomes[i].batch.value < next
    ensures CountSince(Times(AllDrafted(desk, picks, outcomes).batches), next) == 0
    decreases |outcomes|
  {
    if outcomes != [] {
      var n := |outcomes| - 1;
      BatchesStayOnTheDay(desk, picks, outcomes[..n], next);
      if outcomes[n].batch.Some? {
        var before := AllDrafted(desk, picks, outcomes[..n]).batches;
        TimesSnoc(before, Turn(picks[n], outcomes[n].batch.value));
        CountSnoc(Times(before), outcomes[n].batch.value, next, 0);
      }
    }
  }

  lemma {:induction false} StampsStayOnTheDay(desk: Desk, picks: seq<string>, outcomes: seq<Outcome>, next: int)
    requires |outcomes| <= |picks| && forall p :: p in desk.radars ==> Waiting(desk.radars[p]) < next
    requires forall i :: 0 <= i < |outcomes| && outcomes[i].stamped.Some? ==> outcomes[i].stamped.value < next
    ensures forall p :: p in AllDrafted(desk, picks, outcomes).radars ==>
        Waiting(AllDrafted(desk, picks, outcomes).radars[p]) < next
    decreases |outcomes|
  {
    if outcomes != [] {
      StampsStayOnTheDay(desk, picks, outcomes[..|outcomes| - 1], next);
    }
  }

  lemma RestedNextDay(desk: Desk, sweep: Sweep, day: nat)
    requires Rested(desk, day) && DailySweep(desk, sweep) && day <= sweep.at / DAY
    ensures Rested(Swept(desk, sweep), sweep.at / DAY + 1)
  {
    var next := (sweep.at / DAY + 1) * DAY;
    var picks := PicksOf(desk, sweep);
    CountFalls(Times(desk.batches), day * DAY, next);
    BatchesStayOnTheDay(desk, picks, sweep.outcomes, next);
    StampsStayOnTheDay(desk, picks, sweep.outcomes, next);
    SweptRadars(desk, sweep, day);
  }

  /** One daily sweep a day, on days that only go up. */
  predicate Rotation(desk: Desk, sweeps: seq<Sweep>, day: nat)
    decreases |sweeps|
  {
    sweeps == [] ||
      (DailySweep(desk, sweeps[0]) && day <= sweeps[0].at / DAY
       && Rotation(Swept(desk, sweeps[0]), sweeps[1..], sweeps[0].at / DAY + 1))
  }

  /** None of the sweeps picks the product. */
  predicate PassedOver(desk: Desk, sweeps: seq<Sweep>, day: nat, product: string)
    requires Rotation(desk, sweeps, day)
    decreases |sweeps|
  {
    sweeps == [] ||
      (product !in PicksOf(desk, sweeps[0])
       && PassedOver(Swept(desk, sweeps[0]), sweeps[1..], sweeps[0].at / DAY + 1, product))
  }

  lemma FirstOfRotation(desk: Desk, sweeps: seq<Sweep>, day: nat, product: string)
    requires Rotation(desk, sweeps, day) && PassedOver(desk, sweeps, day, product) && sweeps != []
    ensures DailySweep(desk, sweeps[0]) && day <= sweeps[0].at / DAY && product !in PicksOf(desk, sweeps[0])
    ensures var next, after := Swept(desk, sweeps[0]), sweeps[0].at / DAY + 1;
            Rotation(next, sweeps[1..], after) && PassedOver(next, sweeps[1..], after, product)
  {
  }

  lemma MissMovesUp(desk: Desk, sweep: Sweep, day: nat, product: string)
    requires Rested(desk, day) && DailySweep(desk, sweep) && day <= sweep.at / DAY && PassedBy(desk, sweep, product)
    ensures var next := Swept(desk, sweep);
      && Rested(next, sweep.at / DAY + 1) && product in next.radars && next.radars[product].drafts
      && |Ahead(next.radars, product)| + 3 <= |Ahead(desk.radars, product)|
  {
    PassedOverMovesUp(desk, sweep, day, product);
    SweptRadars(desk, sweep, day);
    RestedNextDay(desk, sweep, day);
  }

  /** A product that drafts by itself and has a reference at every sweep. */
  predicate AlwaysReady(desk: Desk, sweeps: seq<Sweep>, product: string) {
    && product in desk.radars && desk.radars[product].drafts
    && forall k :: 0 <= k < |sweeps| ==> sweeps[k].hasReference(product)
  }

  lemma {:induction false} EachMissMovesUp(desk: Desk, sweeps: seq<Sweep>, day: nat, product: string)
    requires Rested(desk, day) && Rotation(desk, sweeps, day) && AlwaysReady(desk, sweeps, product)
    requires PassedOver(desk, sweeps, day, product)
    ensures 3 * |sweeps| <= |Ahead(desk.radars, product)|
    decreases |sweeps|
  {
    if sweeps != [] {
      FirstOfRotation(desk, sweeps, day, product);
      MissMovesUp(desk, sweeps[0], day, product);
      EachMissMovesUp(Swept(desk, sweeps[0]), sweeps[1..], sweeps[0].at / DAY + 1, product);
    }
  }

  /**
   * With P products and one sweep a day, a product that has a reference whenever
   * it is looked at waits no more than ceil(P / 3) sweeps for a turn, whichever
   * of the others lack one.
   */
  lemma NobodyWaitsLong(desk: Desk, sweeps: seq<Sweep>, day: nat, product: string)
    requires Rested(desk, day) && Rotation(desk, sweeps, day) && AlwaysReady(desk, sweeps, product)
    requires |sweeps| >= (|desk.radars| + 2) / 3
    ensures !PassedOver(desk, sweeps, day, product)
  {
    if PassedOver(desk, sweeps, day, product) {
      EachMissMovesUp(desk, sweeps, day, product);
      SubsetIsSmaller(Ahead(desk.radars, product), desk.radars.Keys - {product});
    }
  }

  /** From a rested desk a day's sweep that drafts each pick at once. */
  lemma SomeDailySweep(desk: Desk, day: nat, hasReference: string -> bool) returns (sweep: Sweep)
    ensures DailySweep(desk, sweep) && sweep.at == day * DAY && sweep.hasReference == hasReference
  {
    var at: nat := day * DAY;
    var order := SomeOrderIsDue(desk.radars, at);
    var picks := PicksOf(desk, Sweep(at, order, hasReference, []));
    sweep := Sweep(at, order, hasReference, seq(|picks|, _ => Outcome(Some(at), Some(at))));
    assert PicksOf(desk, sweep) == picks;
  }

  /** So whatever products have references, there are rotations of any length. */
  lemma {:induction false} SomeRotation(desk: Desk, day: nat, n: nat, hasReference: string -> bool)
    returns (sweeps: seq<Sweep>)
    requires Rested(desk, day)
    ensures |sweeps| == n && Rotation(desk, sweeps, day)
    ensures forall k :: 0 <= k < n ==> sweeps[k].hasReference == hasReference
    decreases n
  {
    sweeps := [];
    if n > 0 {
      var sweep := SomeDailySweep(desk, day, hasReference);
      RestedNextDay(desk, sweep, day);
      var rest := SomeRotation(Swept(desk, sweep), day + 1, n - 1, hasReference);
      sweeps := [sweep] + rest;
      assert sweeps[1..] == rest && sweep.at / DAY == day;
    }
  }

  // --------------------------------------------------------------- the sweep

  class RadarDesk {
    var radars: map<string, Radar>
    var batches: seq<Turn>
    ghost var turns: seq<Turn>

    ghost function State(): Desk
      reads this
    {
      Desk(radars, batches, turns)
    }

    /** Tries the picks in turn, as far as the outcomes go. */
    method DraftAll(picks: seq<string>, outcomes: seq<Outcome>)
      requires |outcomes| <= |picks|
      modifies this
      ensures State() == AllDrafted(old(State()), picks, outcomes)
    {
      ghost var was := State();
      var i := 0;
      while i < |outcomes|
        invariant 0 <= i <= |outcomes|
        invariant State() == AllDrafted(was, picks, outcomes[..i])
      {
        var pick, outcome := picks[i], outcomes[i];
        assert outcomes[..i + 1][..i] == outcomes[..i];
        if outcome.batch.Some? {
          batches := batches + [Turn(pick, outcome.batch.value)];
        }
        if outcome.stamped.Some? {
          if pick in radars {
            radars := radars[pick := radars[pick].(lastDraft := outcome.stamped)];
          }
          turns := turns + [Turn(pick, outcome.stamped.value)];
        }
        i := i + 1;
      }
      assert outcomes[..i] == outcomes;
    }

    /** The drafting half of a sweep of one workspace, as far as it gets. */
    method RunContentRadar(sweep: Sweep)
      requires Possible(State(), sweep)
      modifies this
      ensures State() == Swept(old(State()), sweep)
    {
      var picks, _ := DraftPicks(sweep.order, sweep.hasReference, batches, sweep.at);
      DraftAll(picks, sweep.outcomes);
    }
  }
}
