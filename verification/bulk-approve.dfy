/**
 * Approving the whole queue: a scan that pages through a list while the cards
 * it approves drop out of that list, and that can stop and resume at a cursor.
 */
module BulkApprove {
  import opened Bounds
  import opened Options
  import opened Sequences

  /** One pending recommendation. Cold email cards with no usable address are not shown. */
  datatype Card = Card(id: int, channel: string, shown: bool)

  /** What became of a card the scan reached. */
  datatype Outcome =
    | OtherChannel
    | Held(gate: Option<string>)
    | HandedOff
    | Approved

  datatype Visit = Visit(card: Card, outcome: Outcome)

  const BULK_APPROVE_SCAN_MAX: nat := 2_000

  datatype Report = Report(
    visits: seq<Visit>,
    attempted: nat,
    approved: nat,
    handoffs: nat,
    held: nat,
    holds: map<string, nat>,
    more: bool,
    cursor: nat,
    scanned: nat)

  // ---------------------------------------------------------------- the queue

  function Shown(pending: seq<Card>): seq<Card> {
    if pending == [] then []
    else Shown(pending[..|pending| - 1]) + (if pending[|pending| - 1].shown then [pending[|pending| - 1]] else [])
  }

  /** The cards on show are all that may be shown, in queue order. */
  lemma {:induction false} ShownAreAll(pending: seq<Card>) returns (at: seq<nat>)
    ensures TakenAt(Shown(pending), pending, at)
    ensures forall k, l :: 0 <= k < l < |at| ==> at[k] < at[l]
    ensures forall i :: 0 <= i < |pending| ==> (i in at <==> pending[i].shown)
    decreases |pending|
  {
    at := [];
    if pending != [] {
      var n := |pending| - 1;
      at := ShownAreAll(pending[..n]);
      assert pending == pending[..n] + [pending[n]];
      TakenGoesOn(Shown(pending[..n]), pending[..n], at, pending[n]);
      TakenIsBefore(Shown(pending[..n]), pending[..n], at);
      assert Shown(pending[..n]) + [] == Shown(pending[..n]);
      if pending[n].shown {
        at := at + [n];
      }
    }
  }

  function Without(pending: seq<Card>, id: int): seq<Card> {
    if pending == [] then []
    else
      var last := pending[|pending| - 1];
      Without(pending[..|pending| - 1], id) + (if last.id != id then [last] else [])
  }

  ghost predicate DistinctIds(cards: seq<Card>) {
    forall i, j :: 0 <= i < j < |cards| ==> cards[i].id != cards[j].id
  }

  function Slice(cards: seq<Card>, offset: nat, limit: nat): seq<Card> {
    cards[Min(offset, |cards|)..Min(offset + limit, |cards|)]
  }

  lemma {:induction false} ShownSplits(a: seq<Card>, b: seq<Card>)
    ensures Shown(a + b) == Shown(a) + Shown(b)
  {
    if b == [] {
      assert a + b == a;
    } else {
      var n := |b| - 1;
      ShownSplits(a, b[..n]);
      assert (a + b)[..|a + b| - 1] == a + b[..n];
    }
  }

  lemma {:induction false} WithoutSplits(a: seq<Card>, b: seq<Card>, id: int)
    ensures Without(a + b, id) == Without(a, id) + Without(b, id)
  {
    if b == [] {
      assert a + b == a;
    } else {
      var n := |b| - 1;
      WithoutSplits(a, b[..n], id);
      assert (a + b)[..|a + b| - 1] == a + b[..n];
    }
  }

  lemma {:induction false} ShownWithout(pending: seq<Card>, id: int)
    ensures Shown(Without(pending, id)) == Without(Shown(pending), id)
  {
    if pending != [] {
      var n := |pending| - 1;
      var last := pending[n];
      ShownWithout(pending[..n], id);
      ShownSplits(Without(pending[..n], id), if last.id != id then [last] else []);
      WithoutSplits(Shown(pending[..n]), if last.shown then [last] else [], id);
    }
  }

  lemma {:induction false} ShownIn(pending: seq<Card>)
    ensures forall c :: c in Shown(pending) ==> c in pending
  {
    if pending != [] {
      var n := |pending| - 1;
      ShownIn(pending[..n]);
      assert pending == pending[..n] + [pending[n]];
    }
  }

  lemma DistinctSnoc(cards: seq<Card>, last: Card)
    requires DistinctIds(cards) && forall c :: c in cards ==> c.id != last.id
    ensures DistinctIds(cards + [last])
  {
  }

  lemma DistinctAround(before: seq<Card>, c: Card, after: seq<Card>)
    requires DistinctIds(before + [c] + after)
    ensures forall d :: d in before || d in after ==> d.id != c.id
  {
    var all := before + [c] + after;
    assert all[|before|] == c;
    forall d | d in before ensures d.id != c.id {
      var i :| 0 <= i < |before| && before[i] == d;
      assert all[i] == d;
    }
    forall d | d in after ensures d.id != c.id {
      var i :| 0 <= i < |after| && after[i] == d;
      assert all[|before| + 1 + i] == d;
    }
  }

  lemma {:induction false} ShownDistinct(pending: seq<Card>)
    requires DistinctIds(pending)
    ensures DistinctIds(Shown(pending))
  {
    if pending != [] {
      var n := |pending| - 1;
      ShownDistinct(pending[..n]);
      ShownIn(pending[..n]);
      forall c | c in Shown(pending[..n]) ensures c.id != pending[n].id {
        var k :| 0 <= k < n && pending[k] == c;
      }
      DistinctSnoc(Shown(pending[..n]), pending[n]);
    }
  }

  lemma {:induction false} WithoutAbsent(cards: seq<Card>, id: int)
    requires forall c :: c in cards ==> c.id != id
    ensures Without(cards, id) == cards
  {
    if cards != [] {
      var n := |cards| - 1;
      assert cards == cards[..n] + [cards[n]];
      WithoutAbsent(cards[..n], id);
    }
  }

  lemma {:induction false} WithoutDistinct(cards: seq<Card>, id: int)
    requires DistinctIds(cards)
    ensures DistinctIds(Without(cards, id))
    ensures forall c :: c in Without(cards, id) ==> c in cards
  {
    if cards != [] {
      var n := |cards| - 1;
      assert cards == cards[..n] + [cards[n]];
      WithoutDistinct(cards[..n], id);
      forall c | c in Without(cards[..n], id) ensures c.id != cards[n].id {
        var k :| 0 <= k < n && cards[k] == c;
      }
      DistinctSnoc(Without(cards[..n], id), cards[n]);
    }
  }

  /** Removing one card by id closes exactly its own gap. */
  lemma RemoveOne(pending: seq<Card>, before: seq<Card>, c: Card, after: seq<Card>)
    requires DistinctIds(pending) && Shown(pending) == before + [c] + after
    ensures Shown(Without(pending, c.id)) == before + after
  {
    ShownDistinct(pending);
    ShownWithout(pending, c.id);
    DistinctAround(before, c, after);
    WithoutMiddle(before, c, after);
  }

  lemma WithoutMiddle(before: seq<Card>, c: Card, after: seq<Card>)
    requires forall d :: d in before || d in after ==> d.id != c.id
    ensures Without(before + [c] + after, c.id) == before + after
  {
    WithoutAbsent(before, c.id);
    WithoutAbsent(after, c.id);
    WithoutSelf(c);
    WithoutSplits(before, [c], c.id);
    WithoutSplits(before + [c], after, c.id);
    assert before + [] == before;
  }

  lemma WithoutSelf(c: Card)
    ensures Without([c], c.id) == []
  {
    assert [c][..0] == [];
  }

  // ------------------------------------------------------------- the bookkeeping

  predicate Leaves(o: Outcome, dryRun: bool) {
    !dryRun && (o.HandedOff? || o.Approved?)
  }

  /** The visited cards that are still pending, in queue order. */
  function Kept(visits: seq<Visit>, dryRun: bool): seq<Card> {
    if visits == [] then []
    else
      var last := visits[|visits| - 1];
      Kept(visits[..|visits| - 1], dryRun) + (if Leaves(last.outcome, dryRun) then [] else [last.card])
  }

  function Cards(visits: seq<Visit>): (cards: seq<Card>)
    ensures |cards| == |visits|
    ensures forall i :: 0 <= i < |visits| ==> cards[i] == visits[i].card
  {
    if visits == [] then [] else Cards(visits[..|visits| - 1]) + [visits[|visits| - 1].card]
  }

  datatype Kind = Passed | Refused | ByHand | Done

  function KindOf(o: Outcome): Kind {
    match o
    case OtherChannel => Passed
    case Held(_) => Refused
    case HandedOff => ByHand
    case Approved => Done
  }

  /** How many visits ended one way. */
  function Num(visits: seq<Visit>, kind: Kind): nat {
    if visits == [] then 0
    else Num(visits[..|visits| - 1], kind) + (if KindOf(visits[|visits| - 1].outcome) == kind then 1 else 0)
  }

  function HoldKey(gate: Option<string>): string {
    if gate.Some? then gate.value else "unknown"
  }

  function HeldAt(visits: seq<Visit>, key: string): nat {
    if visits == [] then 0
    else
      var o := visits[|visits| - 1].outcome;
      HeldAt(visits[..|visits| - 1], key) + (if o.Held? && HoldKey(o.gate) == key then 1 else 0)
  }

  function TallyHold(holds: map<string, nat>, gate: Option<string>): map<string, nat> {
    var key := HoldKey(gate);
    holds[key := (if key in holds then holds[key] else 0) + 1]
  }

  /** The sum of a tally, whatever order its gates are added up in. */
  ghost function Total(holds: map<string, nat>): nat
    decreases |holds|
  {
    if holds == map[] then 0
    else
      var key :| key in holds;
      assert |holds - {key}| < |holds| by { SmallerWithout(holds, key); }
      holds[key] + Total(holds - {key})
  }

  lemma SmallerWithout(holds: map<string, nat>, key: string)
    requires key in holds
    ensures |holds - {key}| == |holds| - 1
  {
    assert (holds - {key}).Keys == holds.Keys - {key};
  }

  lemma {:induction false} TotalAnyOrder(holds: map<string, nat>, key: string)
    requires key in holds
    ensures Total(holds) == holds[key] + Total(holds - {key})
    decreases |holds|
  {
    var first :| key in holds && first in holds && Total(holds) == holds[first] + Total(holds - {first});
    if first != key {
      SmallerWithout(holds, first);
      TotalAnyOrder(holds - {first}, key);
      SmallerWithout(holds, key);
      TotalAnyOrder(holds - {key}, first);
      assert holds - {first} - {key} == holds - {key} - {first};
    }
  }

  lemma TallyAddsOne(holds: map<string, nat>, gate: Option<string>)
    ensures Total(TallyHold(holds, gate)) == Total(holds) + 1
    ensures var key := if gate.None? then "unknown" else gate.value;
            TallyHold(holds, gate) == holds[key := if key in holds then holds[key] + 1 else 1]
  {
    var key := HoldKey(gate);
    var after := TallyHold(holds, gate);
    TotalAnyOrder(after, key);
    if key in holds {
      TotalAnyOrder(holds, key);
      assert after - {key} == holds - {key};
    } else {
      assert after - {key} == holds;
    }
  }

  method SumHolds(holds: map<string, nat>) returns (held: nat)
    ensures held == Total(holds)
  {
    held := 0;
    var left := holds;
    while left != map[]
      invariant held + Total(left) == Total(holds)
      decreases |left|
    {
      var key :| key in left;
      TotalAnyOrder(left, key);
      SmallerWithout(left, key);
      held := held + left[key];
      left := left - {key};
    }
  }

  lemma Snoc(visits: seq<Visit>, v: Visit, dryRun: bool)
    ensures Kept(visits + [v], dryRun) == Kept(visits, dryRun) + (if Leaves(v.outcome, dryRun) then [] else [v.card])
    ensures Cards(visits + [v]) == Cards(visits) + [v.card]
  {
    assert (visits + [v])[..|visits|] == visits;
  }

  // ------------------------------------------------------------------- a press

  /** The counters of one press, as the scan goes. */
  datatype Run = Run(
    visits: seq<Visit>, kept: nat, attempted: nat, approved: nat, handoffs: nat, holds: map<string, nat>) {
    /** Cards acted on; a held card costs nothing of the limit. */
    function Acted(): nat {
      approved + handoffs
    }

    function Add(v: Visit, dryRun: bool): Run {
      Run(visits + [v],
          kept + (if Leaves(v.outcome, dryRun) then 0 else 1),
          attempted + (if v.outcome.OtherChannel? then 0 else 1),
          approved + (if v.outcome.Approved? then 1 else 0),
          handoffs + (if v.outcome.HandedOff? then 1 else 0),
          if v.outcome.Held? then TallyHold(holds, v.outcome.gate) else holds)
    }
  }

  /** The counters after a stretch of visits. */
  ghost function RunOf(visits: seq<Visit>, dryRun: bool): Run {
    if visits == [] then Run([], 0, 0, 0, 0, map[])
    else RunOf(visits[..|visits| - 1], dryRun).Add(visits[|visits| - 1], dryRun)
  }

  lemma RunSnoc(visits: seq<Visit>, v: Visit, dryRun: bool)
    ensures RunOf(visits + [v], dryRun) == RunOf(visits, dryRun).Add(v, dryRun)
  {
    assert (visits + [v])[..|visits|] == visits;
  }

  lemma {:induction false} RunKept(visits: seq<Visit>, dryRun: bool)
    ensures RunOf(visits, dryRun).kept == |Kept(visits, dryRun)| <= |visits|
  {
    if visits != [] {
      RunKept(visits[..|visits| - 1], dryRun);
    }
  }

  lemma {:induction false} RunHeld(visits: seq<Visit>, dryRun: bool)
    ensures Total(RunOf(visits, dryRun).holds) == Num(visits, Refused)
  {
    if visits != [] {
      var n := |visits| - 1;
      RunHeld(visits[..n], dryRun);
      if visits[n].outcome.Held? {
        TallyAddsOne(RunOf(visits[..n], dryRun).holds, visits[n].outcome.gate);
      }
    }
  }

  lemma {:induction false} RunActed(visits: seq<Visit>, dryRun: bool)
    ensures var run := RunOf(visits, dryRun);
            run.approved == Num(visits, Done) && run.handoffs == Num(visits, ByHand)
  {
    if visits != [] {
      RunActed(visits[..|visits| - 1], dryRun);
    }
  }

  lemma {:induction false} RunAttempted(visits: seq<Visit>, dryRun: bool)
    ensures RunOf(visits, dryRun).attempted == |visits| - Num(visits, Passed)
  {
    if visits != [] {
      RunAttempted(visits[..|visits| - 1], dryRun);
    }
  }

  /** Every visit ends one way. */
  lemma {:induction false} KindsPartition(visits: seq<Visit>)
    ensures |visits| == Num(visits, Passed) + Num(visits, Refused) + Num(visits, ByHand) + Num(visits, Done)
  {
    if visits != [] {
      KindsPartition(visits[..|visits| - 1]);
    }
  }

  /** Holds are grouped by gate: each gate's count is the number of cards it held. */
  lemma {:induction false} HoldsGroup(visits: seq<Visit>, dryRun: bool, key: string)
    ensures var holds := RunOf(visits, dryRun).holds;
            HeldAt(visits, key) == if key in holds then holds[key] else 0
  {
    if visits != [] {
      HoldsGroup(visits[..|visits| - 1], dryRun, key);
    }
  }

  predicate OutOfBudget(run: Run, limit: nat, late: bool) {
    late || run.Acted() >= limit || |run.visits| >= BULK_APPROVE_SCAN_MAX
  }

  /** The cards visited are the first of the rest, in order. */
  ghost predicate VisitsNext(rest: seq<Card>, visits: seq<Visit>) {
    |visits| <= |rest| && forall i :: 0 <= i < |visits| ==> visits[i].card == rest[i]
  }

  /**
   * The cards on show are those before the cursor, then the visited ones still
   * pending, then those not reached yet.
   */
  ghost predicate InStep(pending: seq<Card>, lead: seq<Card>, rest: seq<Card>, dryRun: bool, visits: seq<Visit>) {
    && DistinctIds(pending)
    && VisitsNext(rest, visits)
    && Shown(pending) == lead + Kept(visits, dryRun) + rest[|visits|..]
  }

  function Dropped(pending: seq<Card>, v: Visit, dryRun: bool): seq<Card> {
    if Leaves(v.outcome, dryRun) then Without(pending, v.card.id) else pending
  }

  lemma NextOff(front: seq<Card>, rest: seq<Card>, n: nat)
    requires n < |rest|
    ensures front + rest[n..] == front + [rest[n]] + rest[n + 1..]
  {
  }

  lemma NextMoved(lead: seq<Card>, kept: seq<Card>, c: Card, rest: seq<Card>)
    ensures (lead + kept) + [c] + rest == lead + (kept + [c]) + rest
  {
  }

  /** Visiting the next card keeps the queue in step with the visits. */
  lemma StepKeepsPlace(pending: seq<Card>, lead: seq<Card>, rest: seq<Card>, dryRun: bool, visits: seq<Visit>, v: Visit)
    requires InStep(pending, lead, rest, dryRun, visits)
    requires |visits| < |rest| && v.card == rest[|visits|]
    ensures InStep(Dropped(pending, v, dryRun), lead, rest, dryRun, visits + [v])
  {
    Snoc(visits, v, dryRun);
    var kept, after := Kept(visits, dryRun), rest[|visits| + 1..];
    NextOff(lead + kept, rest, |visits|);
    if Leaves(v.outcome, dryRun) {
      RemoveOne(pending, lead + kept, v.card, after);
      WithoutDistinct(pending, v.card.id);
      assert kept + [] == kept;
    } else {
      NextMoved(lead, kept, v.card, after);
    }
  }

  /** The queue once the visited cards that leave have left. */
  ghost function PendingAfter(pending: seq<Card>, visits: seq<Visit>, dryRun: bool): seq<Card> {
    if visits == [] then pending
    else Dropped(PendingAfter(pending, visits[..|visits| - 1], dryRun), visits[|visits| - 1], dryRun)
  }

  lemma PendingSnoc(pending: seq<Card>, visits: seq<Visit>, v: Visit, dryRun: bool)
    ensures PendingAfter(pending, visits + [v], dryRun) == Dropped(PendingAfter(pending, visits, dryRun), v, dryRun)
  {
    assert (visits + [v])[..|visits|] == visits;
  }

  lemma {:induction false} VisitsKeepPlace(pending: seq<Card>, cursor: nat, dryRun: bool, visits: seq<Visit>)
    requires DistinctIds(pending) && VisitsNext(Rest(Shown(pending), cursor), visits)
    ensures InStep(PendingAfter(pending, visits, dryRun), Lead(Shown(pending), cursor), Rest(Shown(pending), cursor),
        dryRun, visits)
  {
    var lead, rest := Lead(Shown(pending), cursor), Rest(Shown(pending), cursor);
    if visits == [] {
      assert Shown(pending) == lead + [] + rest[0..];
    } else {
      var n := |visits| - 1;
      VisitsKeepPlace(pending, cursor, dryRun, visits[..n]);
      StepKeepsPlace(PendingAfter(pending, visits[..n], dryRun), lead, rest, dryRun, visits[..n], visits[n]);
      assert visits == visits[..n] + [visits[n]];
    }
  }

  /** A page is what has been read so far, past the cards to skip. */
  ghost predicate Window(pending: seq<Card>, read: nat, offset: nat, skipped: nat, page: seq<Card>) {
    read <= |pending| && ShownWindow(Shown(pending[..read]), offset, skipped, page)
  }

  ghost predicate ShownWindow(seen: seq<Card>, offset: nat, skipped: nat, page: seq<Card>) {
    skipped == Min(offset, |seen|) && page == seen[skipped..]
  }

  lemma ReadOne(pending: seq<Card>, read: nat)
    requires read < |pending|
    ensures Shown(pending[..read + 1]) == Shown(pending[..read]) + (if pending[read].shown then [pending[read]] else [])
  {
    assert pending[..read + 1][..read] == pending[..read];
  }

  lemma WindowStep(pending: seq<Card>, read: nat, offset: nat, skipped: nat, page: seq<Card>)
    requires Window(pending, read, offset, skipped, page) && read < |pending|
    ensures !pending[read].shown ==> Window(pending, read + 1, offset, skipped, page)
    ensures pending[read].shown && skipped < offset ==> Window(pending, read + 1, offset, skipped + 1, page)
    ensures pending[read].shown && skipped >= offset ==>
        Window(pending, read + 1, offset, skipped, page + [pending[read]])
  {
    ReadOne(pending, read);
    ShownWindowStep(Shown(pending[..read]), pending[read], offset, skipped, page);
  }

  lemma ShownWindowStep(seen: seq<Card>, row: Card, offset: nat, skipped: nat, page: seq<Card>)
    requires ShownWindow(seen, offset, skipped, page)
    ensures ShownWindow(seen + [], offset, skipped, page)
    ensures skipped < offset ==> ShownWindow(seen + [row], offset, skipped + 1, page)
    ensures skipped >= offset ==> ShownWindow(seen + [row], offset, skipped, page + [row])
  {
    assert seen + [] == seen;
  }

  /** What has been read, cut to the window, is the window of the whole when it is full or nothing is left. */
  lemma WindowIsFinal(pending: seq<Card>, read: nat, offset: nat, limit: nat, skipped: nat, page: seq<Card>)
    requires Window(pending, read, offset, skipped, page)
    requires |page| == limit || (|page| < limit && read == |pending|)
    ensures page == Slice(Shown(pending), offset, limit)
  {
    ShownSplits(pending[..read], pending[read..]);
    assert pending == pending[..read] + pending[read..];
  }

  ghost function Lead(start: seq<Card>, cursor: nat): seq<Card> {
    start[..Min(cursor, |start|)]
  }

  ghost function Rest(start: seq<Card>, cursor: nat): seq<Card> {
    start[Min(cursor, |start|)..]
  }

  /** The counters say what the visits say. */
  ghost predicate Reported(r: Report) {
    && r.scanned == |r.visits|
    && r.attempted == |r.visits| - Num(r.visits, Passed)
    && r.approved == Num(r.visits, Done)
    && r.handoffs == Num(r.visits, ByHand)
    && r.held == Num(r.visits, Refused)
    && r.attempted == r.approved + r.handoffs + r.held
    && (forall key :: HeldAt(r.visits, key) == if key in r.holds then r.holds[key] else 0)
  }

  /**
   * One press over what was on show: the next cards in order and without a gap,
   * the cursor at the first of them not reached. Paging leaves no trace.
   */
  ghost predicate Pressed(start: seq<Card>, cursor: nat, dryRun: bool, r: Report) {
    var rest := Rest(start, cursor);
    && VisitsNext(rest, r.visits)
    && r.cursor == cursor + |Kept(r.visits, dryRun)|
    && (!r.more ==> |r.visits| == |rest|)
  }

  /** From the first visits to the later ones, the rows of a page in order. */
  ghost predicate RowsOf(rows: seq<Card>, before: seq<Visit>, visits: seq<Visit>) {
    && before <= visits && |visits| <= |before| + |rows|
    && forall i :: |before| <= i < |visits| ==> visits[i].card == rows[i - |before|]
  }

  /** A page of at most a limit, the next cards not reached; short only at the end. */
  ghost predicate NextRows(rest: seq<Card>, visits: seq<Visit>, rows: seq<Card>, limit: nat) {
    && |visits| <= |rest| && |rows| == Min(limit, |rest| - |visits|)
    && forall i :: 0 <= i < |rows| ==> rows[i] == rest[|visits| + i]
  }

  lemma RowsAreNext(rest: seq<Card>, before: seq<Visit>, rows: seq<Card>, visits: seq<Visit>, limit: nat)
    requires VisitsNext(rest, before) && NextRows(rest, before, rows, limit) && RowsOf(rows, before, visits)
    ensures VisitsNext(rest, visits) && |before| <= |visits| <= |before| + |rows| <= |rest|
    ensures |rows| < limit ==> |before| + |rows| == |rest|
  {
  }

  /** What is on show after a press. */
  ghost function Left(start: seq<Card>, cursor: nat, dryRun: bool, visits: seq<Visit>): seq<Card>
    requires |visits| <= |Rest(start, cursor)|
  {
    Lead(start, cursor) + Kept(visits, dryRun) + Rest(start, cursor)[|visits|..]
  }

  /** The queue and the counters are what the visits made of them. */
  ghost predicate Tracks(start: seq<Card>, now: seq<Card>, run: Run, dryRun: bool) {
    now == PendingAfter(start, run.visits, dryRun) && run == RunOf(run.visits, dryRun)
  }

  lemma TracksSnoc(start: seq<Card>, now: seq<Card>, run: Run, v: Visit, dryRun: bool)
    requires Tracks(start, now, run, dryRun)
    ensures Tracks(start, Dropped(now, v, dryRun), run.Add(v, dryRun), dryRun)
    ensures run.Add(v, dryRun).visits == run.visits + [v]
  {
    PendingSnoc(start, run.visits, v, dryRun);
    RunSnoc(run.visits, v, dryRun);
  }

  /** One more row: the queue and the counters stay in step, and at most one more card was acted on. */
  ghost predicate OneRow(start: seq<Card>, now: seq<Card>, before: Run, run: Run, row: Card, dryRun: bool) {
    && Tracks(start, now, run, dryRun)
    && |run.visits| == |before.visits| + 1 && before.visits <= run.visits && run.visits[|before.visits|].card == row
    && run.Acted() <= before.Acted() + 1
  }

  lemma RowIsCounted(start: seq<Card>, now: seq<Card>, before: Run, v: Visit, dryRun: bool)
    requires Tracks(start, now, before, dryRun)
    ensures OneRow(start, Dropped(now, v, dryRun), before, before.Add(v, dryRun), v.card, dryRun)
  {
    TracksSnoc(start, now, before, v, dryRun);
  }

  /** How far a page has got: its first `i` rows visited, and the budgets kept. */
  ghost predicate PageSoFar(start: seq<Card>, now: seq<Card>, rows: seq<Card>, before: Run, run: Run, i: nat,
          limit: nat, dryRun: bool) {
    && Tracks(start, now, run, dryRun)
    && |run.visits| == |before.visits| + i && RowsOf(rows, before.visits, run.visits)
    && run.Acted() <= limit && |run.visits| <= BULK_APPROVE_SCAN_MAX
    && (i == 0 ==> run == before)
  }

  lemma PageGoesOn(start: seq<Card>, was: seq<Card>, now: seq<Card>, rows: seq<Card>, before: Run, mid: Run,
          run: Run, i: nat,
                   limit: nat, dryRun: bool)
    requires PageSoFar(start, was, rows, before, mid, i, limit, dryRun) && i < |rows|
    requires OneRow(start, now, mid, run, rows[i], dryRun) && !OutOfBudget(mid, limit, false)
    ensures PageSoFar(start, now, rows, before, run, i + 1, limit, dryRun)
  {
  }

  /** What is on show once some cards have been visited. */
  lemma ShownAfter(start: seq<Card>, cursor: nat, dryRun: bool, visits: seq<Visit>)
    requires DistinctIds(start) && VisitsNext(Rest(Shown(start), cursor), visits)
    ensures DistinctIds(PendingAfter(start, visits, dryRun))
    ensures Shown(PendingAfter(start, visits, dryRun)) == Left(Shown(start), cursor, dryRun, visits)
  {
    VisitsKeepPlace(start, cursor, dryRun, visits);
  }

  /** Where a scan stands: what is on show, and how many visited cards stayed. */
  lemma ScanStands(start: seq<Card>, now: seq<Card>, cursor: nat, dryRun: bool, run: Run)
    requires DistinctIds(start) && Tracks(start, now, run, dryRun)
    requires VisitsNext(Rest(Shown(start), cursor), run.visits)
    ensures Shown(now) == Left(Shown(start), cursor, dryRun, run.visits)
    ensures run.kept == |Kept(run.visits, dryRun)|
  {
    ShownAfter(start, cursor, dryRun, run.visits);
    RunKept(run.visits, dryRun);
  }

  lemma {:induction false} KeptIsFewer(visits: seq<Visit>, dryRun: bool)
    ensures |Kept(visits, dryRun)| <= |visits|
  {
    if visits != [] {
      KeptIsFewer(visits[..|visits| - 1], dryRun);
    }
  }

  /** A page read at the first row not reached is the next stretch of the rest. */
  lemma PageIsNext(shown: seq<Card>, cursor: nat, dryRun: bool, visits: seq<Visit>, limit: nat)
    requires |visits| <= |Rest(shown, cursor)|
    ensures NextRows(Rest(shown, cursor), visits,
        Slice(Left(shown, cursor, dryRun, visits), cursor + |Kept(visits, dryRun)|, limit), limit)
  {
    KeptIsFewer(visits, dryRun);
    WindowOf(Lead(shown, cursor), Kept(visits, dryRun), Rest(shown, cursor), |visits|, cursor, limit);
  }

  lemma WindowOf(lead: seq<Card>, kept: seq<Card>, rest: seq<Card>, n: nat, cursor: nat, limit: nat)
    requires n <= |rest| && |kept| <= n
    requires |lead| == cursor || (|lead| < cursor && rest == [])
    ensures var page := Slice(lead + kept + rest[n..], cursor + |kept|, limit);
      && |page| == Min(limit, |rest| - n)
      && (forall i :: 0 <= i < |page| ==> page[i] == rest[n + i])
  {
  }

  /** A press reports the next cards of the queue, as far as its visits went. */
  lemma PressIsInOrder(start: seq<Card>, run: Run, cursor: nat, dryRun: bool, held: nat, more: bool)
    requires run == RunOf(run.visits, dryRun) && VisitsNext(Rest(Shown(start), cursor), run.visits)
    requires !more ==> |run.visits| == |Rest(Shown(start), cursor)|
    ensures Pressed(Shown(start), cursor, dryRun, ReportOf(run, held, more, cursor + run.kept))
  {
    RunKept(run.visits, dryRun);
  }

  /** Its counters account for every card attempted: approved, handed off or held by a gate. */
  lemma PressIsCounted(run: Run, dryRun: bool, held: nat, more: bool, cursor: nat)
    requires run == RunOf(run.visits, dryRun) && held == Total(run.holds)
    ensures Reported(ReportOf(run, held, more, cursor))
  {
    RunHeld(run.visits, dryRun);
    RunActed(run.visits, dryRun);
    RunAttempted(run.visits, dryRun);
    KindsPartition(run.visits);
    forall key ensures HeldAt(run.visits, key) == if key in run.holds then run.holds[key] else 0 {
      HoldsGroup(run.visits, dryRun, key);
    }
  }

  // ------------------------------------------------- what a press comes to

  lemma {:induction false} WithoutIn(cards: seq<Card>, id: int, c: Card)
    ensures c in Without(cards, id) <==> c in cards && c.id != id
  {
    if cards != [] {
      var n := |cards| - 1;
      WithoutIn(cards[..n], id, c);
      assert cards == cards[..n] + [cards[n]];
    }
  }

  /** No visited card that leaves is this one. */
  ghost predicate NotTaken(visits: seq<Visit>, dryRun: bool, id: int) {
    forall i :: 0 <= i < |visits| && Leaves(visits[i].outcome, dryRun) ==> visits[i].card.id != id
  }

  lemma NotTakenSnoc(visits: seq<Visit>, v: Visit, dryRun: bool, id: int)
    ensures NotTaken(visits + [v], dryRun, id) <==>
            NotTaken(visits, dryRun, id) && (Leaves(v.outcome, dryRun) ==> v.card.id != id)
  {
    var all := visits + [v];
    assert all[|visits|] == v && forall i :: 0 <= i < |visits| ==> all[i] == visits[i];
  }

  lemma OneMoreDropped(cards: seq<Card>, v: Visit, dryRun: bool, c: Card)
    ensures c in Dropped(cards, v, dryRun) <==> c in cards && (Leaves(v.outcome, dryRun) ==> v.card.id != c.id)
  {
    WithoutIn(cards, v.card.id, c);
  }

  lemma {:induction false} StillPendingIff(pending: seq<Card>, visits: seq<Visit>, dryRun: bool, c: Card)
    ensures c in PendingAfter(pending, visits, dryRun) <==> c in pending && NotTaken(visits, dryRun, c.id)
    decreases |visits|
  {
    if |visits| > 0 {
      var before, v := visits[..|visits| - 1], visits[|visits| - 1];
      StillPendingIff(pending, before, dryRun, c);
      assert visits == before + [v];
      NotTakenSnoc(before, v, dryRun, c.id);
      PendingSnoc(pending, before, v, dryRun);
      OneMoreDropped(PendingAfter(pending, before, dryRun), v, dryRun, c);
    }
  }

  lemma VisitedOnce(start: seq<Card>, cursor: nat, visits: seq<Visit>)
    requires DistinctIds(start) && VisitsNext(Rest(Shown(start), cursor), visits)
    ensures forall i :: 0 <= i < |visits| ==> visits[i].card in start
    ensures forall i, j :: 0 <= i < j < |visits| ==> visits[i].card.id != visits[j].card.id
  {
    ShownIn(start);
    ShownDistinct(start);
    var shown, skipped := Shown(start), Min(cursor, |Shown(start)|);
    forall i | 0 <= i < |visits| ensures visits[i].card == shown[skipped + i] && visits[i].card in start {
      assert visits[i].card == Rest(shown, cursor)[i] == shown[skipped + i];
      assert shown[skipped + i] in shown;
    }
  }

  /** A visited card is still pending exactly when it was only previewed, of another channel, or held. */
  lemma VisitedStaysIff(start: seq<Card>, cursor: nat, dryRun: bool, visits: seq<Visit>, i: nat)
    requires DistinctIds(start) && VisitsNext(Rest(Shown(start), cursor), visits) && i < |visits|
    ensures visits[i].card in PendingAfter(start, visits, dryRun)
       <==> dryRun || visits[i].outcome.OtherChannel? || visits[i].outcome.Held?
  {
    VisitedOnce(start, cursor, visits);
    StillPendingIff(start, visits, dryRun, visits[i].card);
    assert visits[i].card.id == visits[i].card.id;
  }

  /** The queue gains nobody and loses only cards it visited. */
  lemma UnvisitedStays(start: seq<Card>, cursor: nat, dryRun: bool, visits: seq<Visit>, c: Card)
    requires DistinctIds(start) && VisitsNext(Rest(Shown(start), cursor), visits)
    ensures c in PendingAfter(start, visits, dryRun) ==> c in start
    ensures c in start && (forall i :: 0 <= i < |visits| ==> visits[i].card != c) ==>
              c in PendingAfter(start, visits, dryRun)
  {
    VisitedOnce(start, cursor, visits);
    StillPendingIff(start, visits, dryRun, c);
    if c in start && forall i :: 0 <= i < |visits| ==> visits[i].card != c {
      forall i | 0 <= i < |visits| ensures visits[i].card.id != c.id {
        SameIdSameCard(start, visits[i].card, c);
      }
    }
  }

  lemma SameIdSameCard(cards: seq<Card>, a: Card, b: Card)
    requires DistinctIds(cards) && a in cards && b in cards
    ensures a.id == b.id ==> a == b
  {
  }

  lemma {:induction false} KeptCount(visits: seq<Visit>, dryRun: bool)
    ensures |Kept(visits, dryRun)| == |visits| - (if dryRun then 0 else Num(visits, Done) + Num(visits, ByHand))
  {
    if visits != [] {
      KeptCount(visits[..|visits| - 1], dryRun);
    }
  }

  /** What has become of the queue, card by card. */
  ghost predicate QueueIsRight(start: seq<Card>, now: seq<Card>, dryRun: bool, r: Report) {
    && (forall i :: 0 <= i < |r.visits| ==>
          (r.visits[i].card in now <==> dryRun || r.visits[i].outcome.OtherChannel? || r.visits[i].outcome.Held?))
    && (forall c :: c in start && (forall i :: 0 <= i < |r.visits| ==> r.visits[i].card != c) ==> c in now)
    && (forall c :: c in now ==> c in start)
  }

  lemma PressIsRight(start: seq<Card>, cursor: nat, dryRun: bool, r: Report)
    requires DistinctIds(start) && Pressed(Shown(start), cursor, dryRun, r) && Reported(r)
    ensures QueueIsRight(start, PendingAfter(start, r.visits, dryRun), dryRun, r)
    ensures r.cursor == cursor + r.scanned - (if dryRun then 0 else r.approved + r.handoffs)
  {
    KeptCount(r.visits, dryRun);
    forall i | 0 <= i < |r.visits|
      ensures r.visits[i].card in PendingAfter(start, r.visits, dryRun)
         <==> dryRun || r.visits[i].outcome.OtherChannel? || r.visits[i].outcome.Held?
    {
      VisitedStaysIff(start, cursor, dryRun, r.visits, i);
    }
    forall c
      ensures c in PendingAfter(start, r.visits, dryRun) ==> c in start
      ensures c in start && (forall i :: 0 <= i < |r.visits| ==> r.visits[i].card != c) ==>
                c in PendingAfter(start, r.visits, dryRun)
    {
      UnvisitedStays(start, cursor, dryRun, r.visits, c);
    }
  }

  /** Exactly the cards of another channel were stepped over. */
  ghost predicate ByChannel(visits: seq<Visit>, channel: Option<string>) {
    forall i :: 0 <= i < |visits| ==>
      (visits[i].outcome.OtherChannel? <==> channel.Some? && channel.value != visits[i].card.channel)
  }

  lemma RowByChannel(before: Run, v: Visit, dryRun: bool, channel: Option<string>)
    requires ByChannel(before.visits, channel)
    requires v.outcome.OtherChannel? <==> channel.Some? && channel.value != v.card.channel
    ensures ByChannel(before.Add(v, dryRun).visits, channel)
  {
    assert before.Add(v, dryRun).visits == before.visits + [v];
  }

  function ReportOf(run: Run, held: nat, more: bool, cursor: nat): Report {
    Report(run.visits, run.attempted, run.approved, run.handoffs, held, run.holds, more, cursor, |run.visits|)
  }

  class ApprovalQueue {
    /** Every pending row of the workspace, highest priority first. */
    var pending: seq<Card>

    /** A window of the cards on show, read in raw batches and counted past the hidden ones. */
    method ListPending(limit: nat, offset: nat) returns (page: seq<Card>)
      ensures page == Slice(Shown(pending), offset, limit)
    {
      var batchSize := if limit * 2 > 50 then limit * 2 else 50;
      page := [];
      var rawOffset, skipped := 0, 0;
      ghost var read: nat := 0;
      while |page| < limit
        invariant 0 <= read <= rawOffset <= |pending| && (|page| < limit ==> read == rawOffset)
        invariant Window(pending, read, offset, skipped, page) && |page| <= limit
        decreases |pending| - rawOffset
      {
        var batch := pending[rawOffset..Min(rawOffset + batchSize, |pending|)];
        if |batch| == 0 {
          break;
        }
        rawOffset := rawOffset + |batch|;
        var i := 0;
        while i < |batch|
          invariant 0 <= i <= |batch| && read == rawOffset - |batch| + i
          invariant Window(pending, read, offset, skipped, page) && |page| < limit
        {
          var row := batch[i];
          assert row == pending[read];
          WindowStep(pending, read, offset, skipped, page);
          i, read := i + 1, read + 1;
          if !row.shown {
            continue;
          }
          if skipped < offset {
            skipped := skipped + 1;
            continue;
          }
          page := page + [row];
          if |page| >= limit {
            break;
          }
        }
        if |batch| < batchSize {
          break;
        }
      }
      WindowIsFinal(pending, read, offset, limit, skipped, page);
    }

    /** The engine's answer for one card; a card of another channel is stepped over unasked. */
    method Consider(row: Card, channel: Option<string>) returns (outcome: Outcome)
      ensures outcome.OtherChannel? <==> channel.Some? && channel.value != row.channel
    {
      if channel.Some? && channel.value != row.channel {
        return OtherChannel;
      }
      var refused, byHand := *, *;
      var gate := *;
      outcome := if refused then Held(gate) else if byHand then HandedOff else Approved;
    }

    /** One row: ask the engine, take the card off the queue if it was acted on, count it. */
    method VisitRow(row: Card, channel: Option<string>, dryRun: bool, before: Run,
            ghost start: seq<Card>) returns (run: Run)
      requires Tracks(start, pending, before, dryRun) && ByChannel(before.visits, channel)
      modifies this
      ensures OneRow(start, pending, before, run, row, dryRun) && ByChannel(run.visits, channel)
    {
      var outcome := Consider(row, channel);
      var visit := Visit(row, outcome);
      RowIsCounted(start, pending, before, visit, dryRun);
      RowByChannel(before, visit, dryRun, channel);
      pending := Dropped(pending, visit, dryRun);
      run := before.Add(visit, dryRun);
    }

    /** One page, row by row, until it ends or the budget does. */
    method VisitPage(rows: seq<Card>, channel: Option<string>, limit: nat, dryRun: bool, before: Run,
            ghost start: seq<Card>)
      returns (run: Run, late: bool)
      requires Tracks(start, pending, before, dryRun) && ByChannel(before.visits, channel)
      requires !OutOfBudget(before, limit, false)
      modifies this
      ensures |run.visits| >= |before.visits|
      ensures PageSoFar(start, pending, rows, before, run, |run.visits| - |before.visits|, limit, dryRun)
      ensures |run.visits| < |before.visits| + |rows| ==> OutOfBudget(run, limit, late)
      ensures |rows| > 0 ==> |run.visits| > |before.visits|
      ensures ByChannel(run.visits, channel)
    {
      run, late := before, false;
      var i := 0;
      while i < |rows| && !OutOfBudget(run, limit, late)
        invariant 0 <= i <= |rows|
        invariant PageSoFar(start, pending, rows, before, run, i, limit, dryRun)
        invariant i == 0 ==> !late
        invariant ByChannel(run.visits, channel)
        decreases |rows| - i
      {
        ghost var mid, was := run, pending;
        run := VisitRow(rows[i], channel, dryRun, run, start);
        PageGoesOn(start, was, pending, rows, before, mid, run, i, limit, dryRun);
        i := i + 1;
        late := *;
      }
    }

    /** The next page is the next stretch of the cards not reached. */
    method FetchPage(limit: nat, dryRun: bool, offset: nat, ghost run: Run, ghost start: seq<Card>,
            ghost cursor: nat) returns (rows: seq<Card>)
      requires DistinctIds(start) && Tracks(start, pending, run, dryRun)
      requires VisitsNext(Rest(Shown(start), cursor), run.visits) && offset == cursor + run.kept
      ensures NextRows(Rest(Shown(start), cursor), run.visits, rows, limit)
    {
      rows := ListPending(limit, offset);
      ScanStands(start, pending, cursor, dryRun, run);
      PageIsNext(Shown(start), cursor, dryRun, run.visits, limit);
    }

    /** The page loop: reads on past held cards until a budget is spent or the queue ends. */
    method ScanQueue(channel: Option<string>, limit: nat, dryRun: bool, cursor: nat)
      returns (run: Run, offset: nat, exhausted: bool, late: bool)
      requires 1 <= limit && DistinctIds(pending)
      modifies this
      ensures Tracks(old(pending), pending, run, dryRun)
      ensures VisitsNext(Rest(Shown(old(pending)), cursor), run.visits)
      ensures offset == cursor + run.kept
      ensures run.Acted() <= limit && |run.visits| <= BULK_APPROVE_SCAN_MAX
      ensures ByChannel(run.visits, channel)
      ensures if exhausted then |run.visits| == |Rest(Shown(old(pending)), cursor)| else OutOfBudget(run, limit, late)
    {
      ghost var start := pending;
      run := Run([], 0, 0, 0, 0, map[]);
      offset := cursor;
      exhausted := false;
      late := *;
      while !OutOfBudget(run, limit, late)
        invariant Tracks(start, pending, run, dryRun)
        invariant VisitsNext(Rest(Shown(start), cursor), run.visits)
        invariant offset == cursor + run.kept
        invariant run.Acted() <= limit && |run.visits| <= BULK_APPROVE_SCAN_MAX
        invariant ByChannel(run.visits, channel)
        decreases |Rest(Shown(start), cursor)| - |run.visits|
      {
        var rows := FetchPage(limit, dryRun, offset, run, start, cursor);
        if |rows| == 0 {
          exhausted := true;
          break;
        }
        var before := run;
        run, late := VisitPage(rows, channel, limit, dryRun, before, start);
        RowsAreNext(Rest(Shown(start), cursor), before.visits, rows, run.visits, limit);
        // Only the rows of this page that are still pending move the offset.
        var stayed := run.kept - before.kept;
        offset := offset + stayed;
        if |run.visits| < |before.visits| + |rows| {
          break;
        }
        if |rows| < limit {
          exhausted := true;
          break;
        }
      }
    }

    /**
     * Approves every card the engine permits, from a cursor on. What each card
     * comes to, and when the clock runs out, is not decided here.
     */
    method ApproveAll(channel: Option<string>, limit: nat, dryRun: bool, cursor: nat) returns (r: Report,
            ghost ranLate: bool)
      requires 1 <= limit <= 200
      requires DistinctIds(pending)
      modifies this
      ensures Pressed(old(Shown(pending)), cursor, dryRun, r) && Reported(r)
      ensures pending == PendingAfter(old(pending), r.visits, dryRun)
      ensures DistinctIds(pending) && Shown(pending) == Left(old(Shown(pending)), cursor, dryRun, r.visits)
      ensures QueueIsRight(old(pending), pending, dryRun, r) && ByChannel(r.visits, channel)
      ensures r.cursor == cursor + r.scanned - (if dryRun then 0 else r.approved + r.handoffs)
      ensures r.approved + r.handoffs <= limit && r.scanned <= 2_000
      ensures r.more ==> ranLate || r.approved + r.handoffs == limit || r.scanned == 2_000
    {
      ghost var start := pending;
      var run, offset, exhausted, late := ScanQueue(channel, limit, dryRun, cursor);
      ranLate := late;
      var held := SumHolds(run.holds);
      r := ReportOf(run, held, !exhausted, offset);
      PressIsInOrder(start, run, cursor, dryRun, held, !exhausted);
      PressIsCounted(run, dryRun, held, !exhausted, offset);
      ShownAfter(start, cursor, dryRun, run.visits);
      PressIsRight(start, cursor, dryRun, r);
    }
  }

  // ---------------------------------------------------------- press after press

  ghost function AllVisits(reports: seq<Report>): seq<Visit> {
    if reports == [] then [] else reports[0].visits + AllVisits(reports[1..])
  }

  /** Presses that each pass back the cursor the one before returned. */
  ghost predicate Chained(start: seq<Card>, cursor: nat, dryRun: bool, reports: seq<Report>)
    decreases |reports|
  {
    reports == [] ||
    (&& Pressed(start, cursor, dryRun, reports[0])
     && Chained(Left(start, cursor, dryRun, reports[0].visits), reports[0].cursor, dryRun, reports[1..]))
  }

  /** What the last press leaves on show. */
  ghost function FinallyLeft(start: seq<Card>, cursor: nat, dryRun: bool, reports: seq<Report>): seq<Card>
    requires Chained(start, cursor, dryRun, reports)
    decreases |reports|
  {
    if reports == [] then start
    else FinallyLeft(Left(start, cursor, dryRun, reports[0].visits), reports[0].cursor, dryRun, reports[1..])
  }

  ghost function FinalCursor(cursor: nat, reports: seq<Report>): nat {
    if reports == [] then cursor else reports[|reports| - 1].cursor
  }

  lemma {:induction false} KeptSplits(a: seq<Visit>, b: seq<Visit>, dryRun: bool)
    ensures Kept(a + b, dryRun) == Kept(a, dryRun) + Kept(b, dryRun)
  {
    if b == [] {
      assert a + b == a;
    } else {
      var n := |b| - 1;
      KeptSplits(a, b[..n], dryRun);
      assert (a + b)[..|a + b| - 1] == a + b[..n];
    }
  }

  /** After a press the cursor stands between the cards that stayed and those not reached. */
  lemma CursorStandsAtTheRest(start: seq<Card>, cursor: nat, dryRun: bool, r: Report)
    requires Pressed(start, cursor, dryRun, r)
    ensures var after := Left(start, cursor, dryRun, r.visits);
      && Lead(after, r.cursor) == Lead(start, cursor) + Kept(r.visits, dryRun)
      && Rest(after, r.cursor) == Rest(start, cursor)[|r.visits|..]
  {
    if cursor > |start| {
      assert r.visits == [];
    }
  }

  lemma DropTwice(rest: seq<Card>, m: nat, n: nat)
    requires m + n <= |rest|
    ensures rest[m..][n..] == rest[m + n..]
  {
  }

  lemma VisitsGoOn(rest: seq<Card>, a: seq<Visit>, b: seq<Visit>)
    requires VisitsNext(rest, a) && VisitsNext(rest[|a|..], b)
    ensures VisitsNext(rest, a + b)
  {
    forall i | 0 <= i < |a + b| ensures (a + b)[i].card == rest[i] {
      if i >= |a| {
        assert rest[|a|..][i - |a|] == rest[i];
      }
    }
  }

  /** The visits of a chain are the cards from its first cursor on, in order, to the end when the last press says so. */
  lemma {:induction false} ChainInOrder(start: seq<Card>, cursor: nat, dryRun: bool, reports: seq<Report>)
    requires Chained(start, cursor, dryRun, reports)
    ensures VisitsNext(Rest(start, cursor), AllVisits(reports))
    ensures reports != [] && !reports[|reports| - 1].more ==> |AllVisits(reports)| == |Rest(start, cursor)|
    decreases |reports|
  {
    if reports != [] {
      var first, others := reports[0], reports[1..];
      CursorStandsAtTheRest(start, cursor, dryRun, first);
      ChainInOrder(Left(start, cursor, dryRun, first.visits), first.cursor, dryRun, others);
      VisitsGoOn(Rest(start, cursor), first.visits, AllVisits(others));
      assert others != [] ==> others[|others| - 1] == reports[|reports| - 1];
    }
  }

  lemma Together(lead: seq<Card>, kept: seq<Card>, more: seq<Card>)
    ensures (lead + kept) + more == lead + (kept + more)
  {
  }

  /** What a chain leaves: before its last cursor the cards that stayed, from it on those not reached. */
  lemma {:induction false} ChainStands(start: seq<Card>, cursor: nat, dryRun: bool, reports: seq<Report>)
    requires Chained(start, cursor, dryRun, reports)
    requires |AllVisits(reports)| <= |Rest(start, cursor)|
    ensures var left, at := FinallyLeft(start, cursor, dryRun, reports), FinalCursor(cursor, reports);
      && Lead(left, at) == Lead(start, cursor) + Kept(AllVisits(reports), dryRun)
      && Rest(left, at) == Rest(start, cursor)[|AllVisits(reports)|..]
    decreases |reports|
  {
    if reports != [] {
      var first, others := reports[0], reports[1..];
      CursorStandsAtTheRest(start, cursor, dryRun, first);
      ChainStands(Left(start, cursor, dryRun, first.visits), first.cursor, dryRun, others);
      KeptSplits(first.visits, AllVisits(others), dryRun);
      Together(Lead(start, cursor), Kept(first.visits, dryRun), Kept(AllVisits(others), dryRun));
      DropTwice(Rest(start, cursor), |first.visits|, |AllVisits(others)|);
      assert others != [] ==> others[|others| - 1] == reports[|reports| - 1];
    }
  }

  lemma LeadAndRest(cards: seq<Card>, at: nat)
    ensures cards == Lead(cards, at) + Rest(cards, at)
  {
  }

  /**
   * A chain of presses visits the cards from the first cursor on once each and
   * in queue order, whichever of them leave and wherever the budgets cut in;
   * the first card not visited stands exactly at the cursor; and when a press
   * says there is no more, none is left.
   */
  lemma ChainVisitsInOrder(start: seq<Card>, cursor: nat, dryRun: bool, reports: seq<Report>)
    requires Chained(start, cursor, dryRun, reports)
    ensures VisitsNext(Rest(start, cursor), AllVisits(reports))
    ensures var left, at := FinallyLeft(start, cursor, dryRun, reports), FinalCursor(cursor, reports);
      && left == Left(start, cursor, dryRun, AllVisits(reports))
      && Rest(left, at) == Rest(start, cursor)[|AllVisits(reports)|..]
    ensures reports != [] && !reports[|reports| - 1].more ==>
              Rest(FinallyLeft(start, cursor, dryRun, reports), FinalCursor(cursor, reports)) == []
  {
    ChainInOrder(start, cursor, dryRun, reports);
    ChainStands(start, cursor, dryRun, reports);
    LeadAndRest(FinallyLeft(start, cursor, dryRun, reports), FinalCursor(cursor, reports));
  }

  /** From the top of a queue, presses until one says there is no more visit every card exactly once. */
  lemma WholeQueueVisitedOnce(start: seq<Card>, dryRun: bool, reports: seq<Report>)
    requires DistinctIds(start) && Chained(start, 0, dryRun, reports)
    requires reports != [] && !reports[|reports| - 1].more
    ensures Cards(AllVisits(reports)) == start
    ensures FinallyLeft(start, 0, dryRun, reports) == Kept(AllVisits(reports), dryRun)
    ensures forall i, j :: 0 <= i < j < |AllVisits(reports)| ==>
        AllVisits(reports)[i].card.id != AllVisits(reports)[j].card.id
  {
    ChainInOrder(start, 0, dryRun, reports);
    ChainVisitsInOrder(start, 0, dryRun, reports);
    WholeIsRest(start);
    EachVisitedOnce(start, AllVisits(reports));
    OnlyKeptLeft(start, dryRun, AllVisits(reports));
  }

  lemma WholeIsRest(start: seq<Card>)
    ensures Rest(start, 0) == start
  {
  }

  lemma OnlyKeptLeft(start: seq<Card>, dryRun: bool, visits: seq<Visit>)
    requires |visits| == |start|
    ensures |Rest(start, 0)| == |start| && Left(start, 0, dryRun, visits) == Kept(visits, dryRun)
  {
  }

  lemma EachVisitedOnce(start: seq<Card>, visits: seq<Visit>)
    requires DistinctIds(start) && VisitsNext(start, visits) && |visits| == |start|
    ensures Cards(visits) == start
    ensures forall i, j :: 0 <= i < j < |visits| ==> visits[i].card.id != visits[j].card.id
  {
  }

  /** Presses that each reach a card run out of cards: there are at most as many as the cards left. */
  lemma {:induction false} PressesRunOut(start: seq<Card>, cursor: nat, dryRun: bool, reports: seq<Report>)
    requires Chained(start, cursor, dryRun, reports)
    requires forall i :: 0 <= i < |reports| ==> reports[i].visits != []
    ensures |reports| <= |Rest(start, cursor)|
    decreases |reports|
  {
    if reports != [] {
      CursorStandsAtTheRest(start, cursor, dryRun, reports[0]);
      PressesRunOut(Left(start, cursor, dryRun, reports[0].visits), reports[0].cursor, dryRun, reports[1..]);
    }
  }

  // ------------------------------------------------- when others work the queue

  /**
   * Between two pages or two presses others may approve cards, let them run out
   * or add new ones. Whatever they leave, reading on from a cursor begins at the
   * first card not visited exactly when as many cards stand before it as the
   * cursor says; otherwise it skips as many as are missing before it, or reads
   * again as many as were added.
   */
  lemma ReadsOnIff(before: seq<Card>, unvisited: seq<Card>, cursor: nat)
    requires unvisited != []
    ensures Rest(before + unvisited, cursor) == unvisited <==> |before| == cursor
    ensures cursor > |before| ==>
              Rest(before + unvisited, cursor) == unvisited[Min(cursor - |before|, |unvisited|)..]
    ensures cursor < |before| ==> Rest(before + unvisited, cursor) == before[cursor..] + unvisited
  {
    assert |Rest(before + unvisited, cursor)| == |before| + |unvisited| - Min(cursor, |before| + |unvisited|);
  }

  /** What happens to a queue: a press from where the last one stopped, or others changing what is on show. */
  datatype Turn = Press(report: Report) | Others(next: seq<Card>)

  /** A queue on show and the cursor the next press will be given. */
  datatype Place = Place(cards: seq<Card>, cursor: nat)

  ghost predicate Fits(p: Place, dryRun: bool, turn: Turn) {
    match turn
    case Press(r) => Pressed(p.cards, p.cursor, dryRun, r) && DistinctIds(Left(p.cards, p.cursor, dryRun, r.visits))
    case Others(next) => DistinctIds(next)
  }

  ghost function After(p: Place, dryRun: bool, turn: Turn): Place
    requires Fits(p, dryRun, turn)
  {
    match turn
    case Press(r) => Place(Left(p.cards, p.cursor, dryRun, r.visits), r.cursor)
    case Others(next) => Place(next, p.cursor)
  }

  ghost predicate Shared(p: Place, dryRun: bool, turns: seq<Turn>)
    decreases |turns|
  {
    turns == [] || (Fits(p, dryRun, turns[0]) && Shared(After(p, dryRun, turns[0]), dryRun, turns[1..]))
  }

  ghost function Finally(p: Place, dryRun: bool, turns: seq<Turn>): Place
    requires Shared(p, dryRun, turns)
    decreases |turns|
  {
    if turns == [] then p else Finally(After(p, dryRun, turns[0]), dryRun, turns[1..])
  }

  /** Others keep the cursor between the cards before it and those after it, and bring no card back. */
  ghost predicate Considerate(p: Place, next: seq<Card>) {
    && (forall c :: c in Rest(p.cards, p.cursor) && c in next ==> c in Rest(next, p.cursor))
    && (forall c :: c in Rest(next, p.cursor) ==> c in Rest(p.cards, p.cursor) || c !in p.cards)
  }

  ghost predicate AllConsiderate(p: Place, dryRun: bool, turns: seq<Turn>)
    requires Shared(p, dryRun, turns)
    decreases |turns|
  {
    turns == [] ||
    (&& (turns[0].Others? ==> Considerate(p, turns[0].next))
     && AllConsiderate(After(p, dryRun, turns[0]), dryRun, turns[1..]))
  }

  predicate VisitedIn(turn: Turn, c: Card) {
    turn.Press? && exists i :: 0 <= i < |turn.report.visits| && turn.report.visits[i].card == c
  }

  predicate Visited(turns: seq<Turn>, c: Card) {
    exists k :: 0 <= k < |turns| && VisitedIn(turns[k], c)
  }

  predicate TakenByOthers(turns: seq<Turn>, c: Card) {
    exists k :: 0 <= k < |turns| && turns[k].Others? && c !in turns[k].next
  }

  lemma VisitedCons(turn: Turn, turns: seq<Turn>, c: Card)
    ensures Visited([turn] + turns, c) <==> VisitedIn(turn, c) || Visited(turns, c)
    ensures TakenByOthers([turn] + turns, c) <==> (turn.Others? && c !in turn.next) || TakenByOthers(turns, c)
  {
    var all := [turn] + turns;
    assert all[0] == turn && forall k :: 0 <= k < |turns| ==> all[k + 1] == turns[k];
    if Visited(turns, c) {
      var k :| 0 <= k < |turns| && VisitedIn(turns[k], c);
      assert VisitedIn(all[k + 1], c);
    }
    if TakenByOthers(turns, c) {
      var k :| 0 <= k < |turns| && turns[k].Others? && c !in turns[k].next;
      assert all[k + 1].Others? && c !in all[k + 1].next;
    }
  }

  /** A press either visits a card still ahead of the cursor or leaves it ahead. */
  lemma PressReachesOrLeaves(p: Place, dryRun: bool, r: Report, c: Card)
    requires Fits(p, dryRun, Press(r)) && c in Rest(p.cards, p.cursor)
    ensures VisitedIn(Press(r), c) || c in Rest(After(p, dryRun, Press(r)).cards, r.cursor)
  {
    CursorStandsAtTheRest(p.cards, p.cursor, dryRun, r);
    var rest := Rest(p.cards, p.cursor);
    var i :| 0 <= i < |rest| && rest[i] == c;
    if i < |r.visits| {
      assert r.visits[i].card == c;
    } else {
      assert rest[|r.visits|..][i - |r.visits|] == c;
    }
  }

  /**
   * While others are considerate, nobody is passed over: a card ahead of the
   * cursor is visited, or still ahead of it at the end, or was taken by others.
   */
  lemma {:induction false} NobodyIsPassedOver(p: Place, dryRun: bool, turns: seq<Turn>, c: Card)
    requires Shared(p, dryRun, turns) && AllConsiderate(p, dryRun, turns) && c in Rest(p.cards, p.cursor)
    ensures Visited(turns, c) || TakenByOthers(turns, c)
         || c in Rest(Finally(p, dryRun, turns).cards, Finally(p, dryRun, turns).cursor)
    decreases |turns|
  {
    if turns != [] {
      var turn, rest := turns[0], turns[1..];
      assert turns == [turn] + rest;
      VisitedCons(turn, rest, c);
      if turn.Press? {
        PressReachesOrLeaves(p, dryRun, turn.report, c);
      }
      var next := After(p, dryRun, turn);
      if c in Rest(next.cards, next.cursor) {
        NobodyIsPassedOver(next, dryRun, rest, c);
      }
    }
  }

  /** A card behind the cursor, or gone for good, is not visited. */
  lemma {:induction false} BehindStaysBehind(p: Place, dryRun: bool, turns: seq<Turn>, c: Card)
    requires Shared(p, dryRun, turns) && AllConsiderate(p, dryRun, turns) && c !in Rest(p.cards, p.cursor)
    requires NeverBroughtBack(p, dryRun, turns, c)
    ensures !Visited(turns, c)
    decreases |turns|
  {
    if turns != [] {
      var turn, rest := turns[0], turns[1..];
      assert turns == [turn] + rest;
      VisitedCons(turn, rest, c);
      if turn.Press? {
        CursorStandsAtTheRest(p.cards, p.cursor, dryRun, turn.report);
        NotReached(Rest(p.cards, p.cursor), turn.report.visits, c);
      }
      BehindStaysBehind(After(p, dryRun, turn), dryRun, rest, c);
    }
  }

  /** What a press visits it does not leave ahead of the cursor. */
  lemma VisitedIsBehind(p: Place, dryRun: bool, r: Report, i: nat)
    requires Fits(p, dryRun, Press(r)) && DistinctIds(p.cards) && i < |r.visits|
    ensures r.visits[i].card !in Rest(After(p, dryRun, Press(r)).cards, r.cursor)
  {
    CursorStandsAtTheRest(p.cards, p.cursor, dryRun, r);
    var rest, skipped := Rest(p.cards, p.cursor), Min(p.cursor, |p.cards|);
    forall j | |r.visits| <= j < |rest| ensures rest[j] != rest[i] {
      assert rest[i] == p.cards[skipped + i] && rest[j] == p.cards[skipped + j];
    }
  }

  /** While others are considerate and bring no card back, a card visited is not visited again. */
  lemma NobodyIsVisitedAgain(p: Place, dryRun: bool, r: Report, later: seq<Turn>, i: nat)
    requires Fits(p, dryRun, Press(r)) && DistinctIds(p.cards) && i < |r.visits|
    requires Shared(After(p, dryRun, Press(r)), dryRun, later)
    requires AllConsiderate(After(p, dryRun, Press(r)), dryRun, later)
    requires NeverBroughtBack(After(p, dryRun, Press(r)), dryRun, later, r.visits[i].card)
    ensures !Visited(later, r.visits[i].card)
  {
    VisitedIsBehind(p, dryRun, r, i);
    BehindStaysBehind(After(p, dryRun, Press(r)), dryRun, later, r.visits[i].card);
  }

  lemma NotReached(rest: seq<Card>, visits: seq<Visit>, c: Card)
    requires VisitsNext(rest, visits) && c !in rest
    ensures forall i :: 0 <= i < |visits| ==> visits[i].card != c
    ensures c !in rest[|visits|..]
  {
    assert forall i :: 0 <= i < |visits| ==> rest[i] in rest;
  }

  /** Once gone from the queue, a card does not come back. */
  ghost predicate NeverBroughtBack(p: Place, dryRun: bool, turns: seq<Turn>, c: Card)
    requires Shared(p, dryRun, turns)
    decreases |turns|
  {
    turns == [] ||
    (&& (turns[0].Others? && c in turns[0].next ==> c in p.cards)
     && NeverBroughtBack(After(p, dryRun, turns[0]), dryRun, turns[1..], c))
  }
}
