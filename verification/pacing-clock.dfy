/**
 * When a held message may go: the latest moment any breached pacing limit is
 * said to clear, checked against the log of actions the limits are counted from.
 */
module PacingClock {
  import opened Options
  import opened DailyQuota
  import opened PolicyEngine

  /** Milliseconds since the epoch, as every stamp here. */
  const HOUR: int := 3_600_000
  const WEEK: int := 168 * HOUR

  // ------------------------------------------------------------- the answer

  function NextMidnight(now: nat): nat {
    (now / DAY + 1) * DAY
  }

  function When(hit: bool, at: real): seq<real> {
    if hit then [at] else []
  }

  function CooldownEnd(now: nat, cooldown: real, elapsed: Option<real>): real {
    now as real + (cooldown - (if elapsed.Some? then elapsed.value else 0.0)) * 3600000.0
  }

  /** A week after the last message, and never sooner than an hour from now. */
  function WeekEnd(now: nat, elapsed: Option<real>): real {
    var left := 168.0 - (if elapsed.Some? then elapsed.value else 0.0);
    now as real + (if left > 1.0 then left else 1.0) * 3600000.0
  }

  /** When each limit but the day's is said to clear. */
  function Others(r: Request, now: nat): seq<real> {
    When(ProspectCooling(r), CooldownEnd(now, CooldownHours(r), r.hoursSinceProspect))
    + When(AddressCooling(r), CooldownEnd(now, CooldownHours(r), r.hoursSinceAddress))
    + When(ProspectFull(r), WeekEnd(now, r.hoursSinceProspect))
    + When(AddressFull(r), WeekEnd(now, r.hoursSinceAddress))
  }

  function Candidates(r: Request, now: nat): seq<real> {
    When(DayFull(r), NextMidnight(now) as real) + Others(r, now)
  }

  function Latest(times: seq<real>): (m: real)
    requires times != []
    ensures m in times
    ensures forall t :: t in times ==> t <= m
  {
    var last := times[|times| - 1];
    if |times| == 1 then last
    else
      var init := times[..|times| - 1];
      assert times == init + [last];
      var m := Latest(init);
      if last > m then last else m
  }

  /** The stamp handed to the sender, cut to whole milliseconds; None when no limit is breached. */
  function PacingClearsAt(r: Request, now: nat): Option<int> {
    var times := Candidates(r, now);
    if times == [] then None else Some(Latest(times).Floor)
  }

  predicate AnyBreached(r: Request) {
    DayFull(r) || ProspectCooling(r) || AddressCooling(r) || ProspectFull(r) || AddressFull(r)
  }

  lemma UndefinedIffNothingBreached(r: Request, now: nat)
    ensures PacingClearsAt(r, now).None? <==> !AnyBreached(r)
  {
    assert |Candidates(r, now)| ==
           |When(DayFull(r), NextMidnight(now) as real)|
           + |When(ProspectCooling(r), CooldownEnd(now, CooldownHours(r), r.hoursSinceProspect))|
           + |When(AddressCooling(r), CooldownEnd(now, CooldownHours(r), r.hoursSinceAddress))|
           + |When(ProspectFull(r), WeekEnd(now, r.hoursSinceProspect))|
           + |When(AddressFull(r), WeekEnd(now, r.hoursSinceAddress))|;
  }

  // ---------------------------------------------------------------- the log

  /** What was sent: by the product in this workspace, to this person, to this mailbox. */
  datatype History = History(sent: seq<int>, toProspect: seq<int>, toAddress: Option<seq<int>>)

  function LastOf(log: seq<int>): (last: Option<int>)
    ensures last.None? <==> log == []
    ensures last.Some? ==> last.value in log && forall s :: s in log ==> s <= last.value
  {
    if log == [] then None
    else
      var rest := LastOf(log[1..]);
      assert log == [log[0]] + log[1..];
      if rest.None? || log[0] > rest.value then Some(log[0]) else rest
  }

  function HoursSince(log: seq<int>, at: int): Option<real> {
    var last := LastOf(log);
    if last.None? then None else Some((at - last.value) as real / 3600000.0)
  }

  /** The request as the counters would fill it in at a moment, from one unchanged log. */
  function RequestAt(base: Request, h: History, at: int): Request {
    base.(actionsToday := CountSince(h.sent, at - DAY),
          actionsToProspectThisWeek := CountSince(h.toProspect, at - WEEK),
          hoursSinceProspect := HoursSince(h.toProspect, at),
          actionsToAddressThisWeek :=
            if h.toAddress.Some? then Some(CountSince(h.toAddress.value, at - WEEK)) else None,
          hoursSinceAddress := if h.toAddress.Some? then HoursSince(h.toAddress.value, at) else None)
  }

  ghost predicate PastOnly(log: seq<int>, now: int) {
    forall s :: s in log ==> s <= now
  }

  ghost predicate Recorded(h: History, now: int) {
    && PastOnly(h.sent, now) && PastOnly(h.toProspect, now)
    && (h.toAddress.Some? ==> PastOnly(h.toAddress.value, now))
  }

  lemma {:induction false} NothingSince(log: seq<int>, from: int)
    requires forall i :: 0 <= i < |log| ==> log[i] < from
    ensures CountSince(log, from) == 0
  {
    if log != [] {
      NothingSince(log[..|log| - 1], from);
    }
  }

  // ------------------------------------------------- one limit at a time

  /** A weekly cap reads as full after its week exactly when the cap can never be under. */
  lemma WeekClears(log: seq<int>, cap: real, now: nat, at: int)
    requires PastOnly(log, now) && at >= now
    requires CountSince(log, now - WEEK) as real >= cap ==> at as real > WeekEnd(now, HoursSince(log, now))
    ensures CountSince(log, at - WEEK) as real >= cap <==> cap <= 0.0
  {
    CountFalls(log, now - WEEK, at - WEEK);
    if CountSince(log, now - WEEK) as real >= cap {
      if log != [] {
        assert at - WEEK > LastOf(log).value;
      }
      assert forall i :: 0 <= i < |log| ==> log[i] in log;
      NothingSince(log, at - WEEK);
    }
  }

  lemma CooldownClears(log: seq<int>, cooldown: real, now: nat, at: int)
    requires at >= now
    requires HoursSince(log, now).Some? && HoursSince(log, now).value < cooldown
             ==> at as real > CooldownEnd(now, cooldown, HoursSince(log, now))
    ensures HoursSince(log, at).Some? ==> HoursSince(log, at).value >= cooldown
  {
  }

  /** The rolling day only empties, so its worst moment after a given one is the next. */
  lemma DayStaysOpen(base: Request, h: History, from: int, at: int)
    requires from <= at && !DayFull(RequestAt(base, h, from))
    ensures !DayFull(RequestAt(base, h, at))
  {
    CountFalls(h.sent, from - DAY, at - DAY);
  }

  // ------------------------------------------------------------ the promise

  /** No pacing limit is breached at any later moment, if nothing more is recorded. */
  ghost predicate ClearAfter(base: Request, h: History, from: int) {
    forall t :: t > from ==> !AnyBreached(RequestAt(base, h, t))
  }

  /** Caps that some count is under, and a day that has rolled far enough by then. */
  predicate Clearable(base: Request, h: History, from: int) {
    && !NeverUnder(base, h)
    && (base.maxActionsPerDay.AtMost? ==> CountSince(h.sent, from + 1 - DAY) as real < base.maxActionsPerDay.n)
  }

  /** At this moment every limit the request breached is past its own time. */
  ghost predicate PastEach(r: Request, now: nat, at: int) {
    && (ProspectCooling(r) ==> at as real > CooldownEnd(now, CooldownHours(r), r.hoursSinceProspect))
    && (AddressCooling(r) ==> at as real > CooldownEnd(now, CooldownHours(r), r.hoursSinceAddress))
    && (ProspectFull(r) ==> at as real > WeekEnd(now, r.hoursSinceProspect))
    && (AddressFull(r) ==> at as real > WeekEnd(now, r.hoursSinceAddress))
  }

  lemma LaterThanEach(r: Request, now: nat, at: int)
    requires var held := PacingClearsAt(r, now); held.Some? ==> at > held.value
    ensures PastEach(r, now, at)
  {
    LaterThanAll(Candidates(r, now), r, now, at);
    var day := When(DayFull(r), NextMidnight(now) as real);
    var p := When(ProspectCooling(r), CooldownEnd(now, CooldownHours(r), r.hoursSinceProspect));
    var a := When(AddressCooling(r), CooldownEnd(now, CooldownHours(r), r.hoursSinceAddress));
    var pw := When(ProspectFull(r), WeekEnd(now, r.hoursSinceProspect));
    var aw := When(AddressFull(r), WeekEnd(now, r.hoursSinceAddress));
    assert forall x :: x in p || x in a || x in pw || x in aw ==> x in day + (p + a + pw + aw);
    assert |p| > 0 ==> p[0] in p;
    assert |a| > 0 ==> a[0] in a;
    assert |pw| > 0 ==> pw[0] in pw;
    assert |aw| > 0 ==> aw[0] in aw;
  }

  lemma ProspectRests(base: Request, h: History, now: nat, at: int)
    requires at >= now && PastEach(RequestAt(base, h, now), now, at)
    ensures !ProspectCooling(RequestAt(base, h, at))
  {
    CooldownClears(h.toProspect, CooldownHours(base), now, at);
  }

  lemma ProspectWeekClears(base: Request, h: History, now: nat, at: int)
    requires PastOnly(h.toProspect, now) && at >= now && PastEach(RequestAt(base, h, now), now, at)
    ensures ProspectFull(RequestAt(base, h, at)) <==> base.maxActionsPerProspectPerWeek <= 0.0
  {
    WeekClears(h.toProspect, base.maxActionsPerProspectPerWeek, now, at);
  }

  lemma AddressRests(base: Request, h: History, now: nat, at: int)
    requires at >= now && PastEach(RequestAt(base, h, now), now, at)
    ensures !AddressCooling(RequestAt(base, h, at))
  {
    if h.toAddress.Some? {
      CooldownClears(h.toAddress.value, CooldownHours(base), now, at);
    }
  }

  lemma AddressWeekClears(base: Request, h: History, now: nat, at: int)
    requires h.toAddress.Some? ==> PastOnly(h.toAddress.value, now)
    requires at >= now && PastEach(RequestAt(base, h, now), now, at)
    ensures AddressFull(RequestAt(base, h, at)) <==> h.toAddress.Some? && AddressCap(base) <= 0.0
  {
    if h.toAddress.Some? {
      var log, cap := h.toAddress.value, AddressCap(base);
      AddressFullMeans(base, h, now);
      AddressFullMeans(base, h, at);
      assert RequestAt(base, h, now).hoursSinceAddress == HoursSince(log, now);
      WeekClears(log, cap, now, at);
    }
  }

  lemma AddressFullMeans(base: Request, h: History, at: int)
    requires h.toAddress.Some?
    ensures AddressFull(RequestAt(base, h, at)) <==>
        CountSince(h.toAddress.value, at - WEEK) as real >= AddressCap(base)
  {
  }

  /** The moments after the answer. */
  ghost predicate AfterAnswer(base: Request, h: History, now: nat, at: int) {
    var held := PacingClearsAt(RequestAt(base, h, now), now);
    at >= now && (held.Some? ==> at > held.value)
  }

  /** Some weekly cap is one that no count is ever under. */
  predicate NeverUnder(base: Request, h: History) {
    base.maxActionsPerProspectPerWeek <= 0.0 || (h.toAddress.Some? && AddressCap(base) <= 0.0)
  }

  /** After the answer every cooldown is over and every weekly cap that can clear has cleared. */
  lemma OnlyTheDayIsLeft(base: Request, h: History, now: nat, at: int)
    requires Recorded(h, now) && AfterAnswer(base, h, now, at)
    ensures AnyBreached(RequestAt(base, h, at)) <==> DayFull(RequestAt(base, h, at)) || NeverUnder(base, h)
  {
    LaterThanEach(RequestAt(base, h, now), now, at);
    ProspectRests(base, h, now, at);
    ProspectWeekClears(base, h, now, at);
    AddressRests(base, h, now, at);
    AddressWeekClears(base, h, now, at);
  }

  lemma LaterThanAll(times: seq<real>, r: Request, now: nat, at: int)
    requires times == Candidates(r, now)
    requires times != [] ==> at > Latest(times).Floor
    ensures forall x :: x in times ==> at as real > x
  {
    if times != [] {
      var top := Latest(times);
      assert at as real >= top.Floor as real + 1.0 > top;
    }
  }

  /**
   * The time handed to the sender is one after which every pacing limit stays
   * clear, exactly when the weekly caps are positive and fewer than a day's cap
   * of actions fall in the day that ends there.
   */
  lemma HoldClearsIff(base: Request, h: History, now: nat, held: int)
    requires Recorded(h, now)
    requires PacingClearsAt(RequestAt(base, h, now), now) == Some(held)
    ensures ClearAfter(base, h, held) <==> Clearable(base, h, held)
  {
    NeverInThePast(RequestAt(base, h, now), now);
    if Clearable(base, h, held) {
      forall t | t > held ensures !AnyBreached(RequestAt(base, h, t)) {
        OnlyTheDayIsLeft(base, h, now, t);
        DayStaysOpen(base, h, held + 1, t);
      }
    } else {
      OnlyTheDayIsLeft(base, h, now, held + 1);
      assert AnyBreached(RequestAt(base, h, held + 1));
    }
  }

  lemma NeverInThePast(r: Request, now: nat)
    ensures PacingClearsAt(r, now).Some? ==> PacingClearsAt(r, now).value >= now
  {
    var times := Candidates(r, now);
    if times != [] {
      var top := Latest(times);
      assert top >= now as real by {
        assert NextMidnight(now) > now;
        assert top in times;
      }
    }
  }

  /** Nothing breached now means nothing breached later, whatever the caps. */
  lemma OpenStaysOpen(base: Request, h: History, now: nat, at: int)
    requires Recorded(h, now) && at >= now
    requires PacingClearsAt(RequestAt(base, h, now), now).None?
    ensures !AnyBreached(RequestAt(base, h, at))
  {
    UndefinedIffNothingBreached(RequestAt(base, h, now), now);
    OnlyTheDayIsLeft(base, h, now, at);
    OnlyTheDayIsLeft(base, h, now, now);
    DayStaysOpen(base, h, now, at);
  }

  // ------------------------------------- the answer, from the log's own stamps

  /** The limits a request can breach. */
  datatype Limit = ForTheDay | ProspectRest | AddressRest | ProspectWeek | AddressWeek

  predicate Breached(l: Limit, r: Request) {
    match l
    case ForTheDay => DayFull(r)
    case ProspectRest => ProspectCooling(r)
    case AddressRest => AddressCooling(r)
    case ProspectWeek => ProspectFull(r)
    case AddressWeek => AddressFull(r)
  }

  /** A week after the last action of the log, an hour from now at the soonest, and a week from now if there is none. */
  function WeekAfterLast(log: seq<int>, now: int): int {
    var last := LastOf(log);
    if last.None? then now + WEEK else if last.value + WEEK > now + HOUR then last.value + WEEK else now + HOUR
  }

  /** When a breached limit clears: the next UTC midnight, the end of the rest, a week after the last action. */
  ghost predicate ClearsAt(l: Limit, base: Request, h: History, now: nat, end: real) {
    match l
    case ForTheDay => end == ((now / DAY + 1) * DAY) as real
    case ProspectRest =>
      LastOf(h.toProspect).Some? && end == LastOf(h.toProspect).value as real + CooldownHours(base) * 3600000.0
    case AddressRest =>
      && h.toAddress.Some? && LastOf(h.toAddress.value).Some?
      && end == LastOf(h.toAddress.value).value as real + CooldownHours(base) * 3600000.0
    case ProspectWeek => end == WeekAfterLast(h.toProspect, now) as real
    case AddressWeek => h.toAddress.Some? && end == WeekAfterLast(h.toAddress.value, now) as real
  }

  lemma RestEndIs(log: seq<int>, now: nat, cooldown: real)
    requires LastOf(log).Some?
    ensures CooldownEnd(now, cooldown, HoursSince(log, now)) == LastOf(log).value as real + cooldown * 3600000.0
  {
    var last := LastOf(log).value;
    assert (now - last) as real / 3600000.0 * 3600000.0 == (now - last) as real;
  }

  lemma WeekEndIs(log: seq<int>, now: nat)
    ensures WeekEnd(now, HoursSince(log, now)) == WeekAfterLast(log, now) as real
  {
    if log != [] {
      var last := LastOf(log).value;
      assert (now - last) as real / 3600000.0 * 3600000.0 == (now - last) as real;
      assert WEEK as real == 168.0 * 3600000.0;
    }
  }

  /** The time one candidate names. */
  function Candidate(l: Limit, r: Request, now: nat): real {
    match l
    case ForTheDay => NextMidnight(now) as real
    case ProspectRest => CooldownEnd(now, CooldownHours(r), r.hoursSinceProspect)
    case AddressRest => CooldownEnd(now, CooldownHours(r), r.hoursSinceAddress)
    case ProspectWeek => WeekEnd(now, r.hoursSinceProspect)
    case AddressWeek => WeekEnd(now, r.hoursSinceAddress)
  }

  lemma CandidateClears(l: Limit, base: Request, h: History, now: nat, end: real)
    requires Breached(l, RequestAt(base, h, now))
    ensures ClearsAt(l, base, h, now, end) <==> end == Candidate(l, RequestAt(base, h, now), now)
  {
    WeekEndIs(h.toProspect, now);
    if LastOf(h.toProspect).Some? {
      RestEndIs(h.toProspect, now, CooldownHours(base));
    }
    if h.toAddress.Some? {
      WeekEndIs(h.toAddress.value, now);
      if LastOf(h.toAddress.value).Some? {
        RestEndIs(h.toAddress.value, now, CooldownHours(base));
      }
    }
  }

  lemma InFive(a: seq<real>, b: seq<real>, c: seq<real>, d: seq<real>, e: seq<real>, x: real)
    ensures x in a + (b + c + d + e) <==> x in a || x in b || x in c || x in d || x in e
  {
  }

  lemma CandidatesAre(r: Request, now: nat, x: real)
    ensures x in Candidates(r, now) <==> exists l :: Breached(l, r) && x == Candidate(l, r, now)
  {
    InFive(When(DayFull(r), NextMidnight(now) as real),
           When(ProspectCooling(r), CooldownEnd(now, CooldownHours(r), r.hoursSinceProspect)),
           When(AddressCooling(r), CooldownEnd(now, CooldownHours(r), r.hoursSinceAddress)),
           When(ProspectFull(r), WeekEnd(now, r.hoursSinceProspect)),
           When(AddressFull(r), WeekEnd(now, r.hoursSinceAddress)), x);
    InWhen(DayFull(r), Candidate(ForTheDay, r, now), x);
    InWhen(ProspectCooling(r), Candidate(ProspectRest, r, now), x);
    InWhen(AddressCooling(r), Candidate(AddressRest, r, now), x);
    InWhen(ProspectFull(r), Candidate(ProspectWeek, r, now), x);
    InWhen(AddressFull(r), Candidate(AddressWeek, r, now), x);
    if x in Candidates(r, now) {
      var l := if Breached(ForTheDay, r) && x == Candidate(ForTheDay, r, now) then ForTheDay
               else if Breached(ProspectRest, r) && x == Candidate(ProspectRest, r, now) then ProspectRest
               else if Breached(AddressRest, r) && x == Candidate(AddressRest, r, now) then AddressRest
               else if Breached(ProspectWeek, r) && x == Candidate(ProspectWeek, r, now) then ProspectWeek
               else AddressWeek;
      assert Breached(l, r) && x == Candidate(l, r, now);
    }
  }

  lemma InWhen(hit: bool, at: real, x: real)
    ensures x in When(hit, at) <==> hit && x == at
  {
  }

  /**
   * The time handed over is the latest of the breached limits' own times, each
   * read off the stamps of the log: neither sooner nor later.
   */
  lemma HeldToTheLatest(base: Request, h: History, now: nat)
    ensures var held := PacingClearsAt(RequestAt(base, h, now), now);
      held.Some? ==>
        && (exists l, end ::
              Breached(l, RequestAt(base, h, now)) && ClearsAt(l, base, h, now, end) && end.Floor == held.value)
        && (forall l, end :: Breached(l, RequestAt(base, h, now)) && ClearsAt(l, base, h, now, end) ==>
              end.Floor <= held.value)
  {
    var r := RequestAt(base, h, now);
    var times := Candidates(r, now);
    if times != [] {
      var top := Latest(times);
      CandidatesAre(r, now, top);
      var first :| Breached(first, r) && top == Candidate(first, r, now);
      CandidateClears(first, base, h, now, top);
      forall l, end | Breached(l, r) && ClearsAt(l, base, h, now, end) ensures end.Floor <= top.Floor {
        CandidateClears(l, base, h, now, end);
        CandidatesAre(r, now, end);
        FloorFalls(end, top);
      }
    }
  }

  lemma FloorFalls(x: real, y: real)
    ensures x <= y ==> x.Floor <= y.Floor
  {
  }

  /** A rest alone is held to its own end, and until then it is not over. */
  lemma RestIsHeldToItsEnd(base: Request, h: History, now: nat, last: int)
    requires var r := RequestAt(base, h, now);
             ProspectCooling(r) && !DayFull(r) && !ProspectFull(r) && !AddressFull(r) && !AddressCooling(r)
    requires LastOf(h.toProspect) == Some(last)
    ensures PacingClearsAt(RequestAt(base, h, now), now) == Some((last as real + CooldownHours(base) * 3600000.0).Floor)
    ensures forall t: int :: now <= t && t as real < last as real + CooldownHours(base) * 3600000.0 ==>
              ProspectCooling(RequestAt(base, h, t))
  {
    HeldToTheLatest(base, h, now);
    UndefinedIffNothingBreached(RequestAt(base, h, now), now);
    assert Breached(ProspectRest, RequestAt(base, h, now));
  }

  /** A weekly limit alone is held to a week after the last message, an hour from now at the soonest. */
  lemma WeekIsHeldToItsEnd(base: Request, h: History, now: nat, last: int)
    requires var r := RequestAt(base, h, now);
             ProspectFull(r) && !DayFull(r) && !ProspectCooling(r) && !AddressFull(r) && !AddressCooling(r)
    requires LastOf(h.toProspect) == Some(last)
    ensures PacingClearsAt(RequestAt(base, h, now), now)
         == Some(if last + WEEK > now + HOUR then last + WEEK else now + HOUR)
  {
    HeldToTheLatest(base, h, now);
    UndefinedIffNothingBreached(RequestAt(base, h, now), now);
    assert Breached(ProspectWeek, RequestAt(base, h, now));
  }

  /** Midnight, or the last of the other limits to clear when that is later. */
  function FullDayEnd(r: Request, now: nat): int {
    if Others(r, now) == [] || Latest(Others(r, now)).Floor <= NextMidnight(now) then NextMidnight(now)
    else Latest(Others(r, now)).Floor
  }

  lemma LatestOfMore(first: real, others: seq<real>)
    ensures Latest([first] + others)
         == if others == [] || Latest(others) <= first then first else Latest(others)
  {
    var all := [first] + others;
    assert all[0] in all;
    assert others != [] ==> Latest(others) in others && Latest(others) in all;
    assert Latest(all) == first || Latest(all) in others;
  }

  lemma FloorOfLater(first: int, x: real)
    ensures x <= first as real ==> x.Floor <= first
    ensures x > first as real ==> x.Floor >= first
  {
  }

  lemma FullDayIsHeldTo(r: Request, now: nat)
    requires DayFull(r)
    ensures PacingClearsAt(r, now) == Some(FullDayEnd(r, now))
  {
    var midnight, others := NextMidnight(now), Others(r, now);
    assert Candidates(r, now) == [midnight as real] + others;
    LatestOfMore(midnight as real, others);
    if others != [] {
      FloorOfLater(midnight, Latest(others));
    }
  }

  lemma NoneAfterNow(base: Request, h: History, now: nat, from: int)
    requires Recorded(h, now) && from > now
    ensures CountSince(h.sent, from) == 0
  {
    assert forall i :: 0 <= i < |h.sent| ==> h.sent[i] in h.sent;
    NothingSince(h.sent, from);
  }

  /**
   * A full day, alone or with other limits, is held to the later of the next
   * UTC midnight and the other limits' times, though the day is counted over
   * the last twenty-four hours: the hold is long enough exactly when the weekly
   * caps are positive and fewer than the cap went out in the day that ends
   * there, which for a hold of a whole day or more is any positive cap.
   */
  lemma FullDayClearsIff(base: Request, h: History, now: nat)
    requires Recorded(h, now) && DayFull(RequestAt(base, h, now))
    ensures var end := FullDayEnd(RequestAt(base, h, now), now);
      && PacingClearsAt(RequestAt(base, h, now), now) == Some(end)
      && (ClearAfter(base, h, end) <==>
          !NeverUnder(base, h) && CountSince(h.sent, end + 1 - DAY) as real < base.maxActionsPerDay.n)
      && (end >= now + DAY ==>
          (ClearAfter(base, h, end) <==> !NeverUnder(base, h) && base.maxActionsPerDay.n > 0.0))
  {
    var r := RequestAt(base, h, now);
    FullDayIsHeldTo(r, now);
    HoldClearsIff(base, h, now, FullDayEnd(r, now));
    if FullDayEnd(r, now) >= now + DAY {
      NoneAfterNow(base, h, now, FullDayEnd(r, now) + 1 - DAY);
    }
  }

  /** A full day on its own waits for midnight: enough exactly when fewer than the cap went out since the last one. */
  lemma DayHoldClearsIff(base: Request, h: History, now: nat)
    requires Recorded(h, now)
    requires var r := RequestAt(base, h, now);
      && DayFull(r) && !ProspectCooling(r) && !AddressCooling(r) && !ProspectFull(r) && !AddressFull(r)
    ensures PacingClearsAt(RequestAt(base, h, now), now) == Some(NextMidnight(now))
    ensures ClearAfter(base, h, NextMidnight(now))
       <==> CountSince(h.sent, DayOf(now) + 1) as real < base.maxActionsPerDay.n
  {
    var r := RequestAt(base, h, now);
    assert Candidates(r, now) == [NextMidnight(now) as real];
    HoldClearsIff(base, h, now, NextMidnight(now));
    assert NextMidnight(now) + 1 - DAY == DayOf(now) + 1;
  }

  /** One action at 23:00 under a cap of one: held at 23:30 to midnight, and still over the cap just after it. */
  lemma MidnightIsTooSoon(base: Request)
    requires base.maxActionsPerDay == AtMost(1.0) && base.maxActionsPerProspectPerWeek == 1.0
    ensures var h := History([23 * HOUR], [], None);
            var now := 23 * HOUR + HOUR / 2;
            PacingClearsAt(RequestAt(base, h, now), now) == Some(24 * HOUR)
            && AnyBreached(RequestAt(base, h, 24 * HOUR + 1))
  {
    var h := History([23 * HOUR], [], None);
    var now := 23 * HOUR + HOUR / 2;
    var r := RequestAt(base, h, now);
    assert CountSince(h.sent, now - DAY) == 1 && CountSince(h.sent, 24 * HOUR + 1 - DAY) == 1;
    assert CountSince(h.toProspect, now - WEEK) == 0;
    assert Candidates(r, now) == [NextMidnight(now) as real];
  }
}
