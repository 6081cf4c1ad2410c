/**
 * Counting what was written today. A drafter reads how much room is left
 * counting from the start of the UTC day it began in, and writes later,
 * perhaps past midnight.
 */
module DailyQuota {

  const DAY: int := 86_400_000

  /** The start of the UTC day a moment falls in. */
  function DayOf(at: int): int {
    at / DAY * DAY
  }

  function CountSince(times: seq<int>, from: int): nat {
    if times == [] then 0
    else CountSince(times[..|times| - 1], from) + (if times[|times| - 1] >= from then 1 else 0)
  }

  /** How many of these moments fall on the UTC day numbered `day`. */
  function CountOn(times: seq<int>, day: int): nat {
    if times == [] then 0
    else CountOn(times[..|times| - 1], day) + (if times[|times| - 1] / DAY == day then 1 else 0)
  }

  lemma CountSnoc(times: seq<int>, t: int, from: int, day: int)
    ensures CountSince(times + [t], from) == CountSince(times, from) + (if t >= from then 1 else 0)
    ensures CountOn(times + [t], day) == CountOn(times, day) + (if t / DAY == day then 1 else 0)
  {
    assert (times + [t])[..|times|] == times;
  }

  lemma {:induction false} CountFalls(times: seq<int>, from: int, later: int)
    requires from <= later
    ensures CountSince(times, later) <= CountSince(times, from)
  {
    if times != [] {
      CountFalls(times[..|times| - 1], from, later);
    }
  }

  lemma {:induction false} OnIsWithinSince(times: seq<int>, from: int, day: int)
    requires from <= day * DAY
    ensures CountOn(times, day) <= CountSince(times, from)
  {
    if times != [] {
      OnIsWithinSince(times[..|times| - 1], from, day);
    }
  }

  /**
   * Writing within the room read at `at`, at any later moment, keeps every
   * day's count under the cap, the day the writing spills into included.
   */
  lemma WritingKeepsTheCap(times: seq<int>, at: int, t: int, left: nat, cap: nat, day: int)
    requires at <= t && left >= 1
    requires CountSince(times, DayOf(at)) + left <= cap
    requires CountOn(times, day) <= cap
    ensures CountOn(times + [t], day) <= cap
    ensures CountSince(times + [t], DayOf(at)) + (left - 1) <= cap
  {
    CountSnoc(times, t, DayOf(at), day);
    if t / DAY == day {
      OnIsWithinSince(times, DayOf(at), day);
    }
  }
}
