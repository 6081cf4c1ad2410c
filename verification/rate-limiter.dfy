/**
 * The fixed-window limiter in front of the public directory, its lazy sweep
 * included, against a specification read off the whole request history.
 */
module RateLimiter {
  import opened Bounds
  import opened Options

  /** One caller's window: how many requests it has seen and when it ends. */
  datatype Entry = Entry(count: int, resetAt: int)

  datatype Hit = Hit(key: string, at: int)

  datatype Verdict = Verdict(allowed: bool, retryAfterSeconds: int, remaining: int)

  // ----------------------------------------------------------- specification

  /** When one key asked, in order. */
  function TimesOf(history: seq<Hit>, key: string): seq<int>
  {
    if history == [] then []
    else
      var last := history[|history| - 1];
      var before := TimesOf(history[..|history| - 1], key);
      if last.key == key then before + [last.at] else before
  }

  /** The window a key is in after asking at these times: the first request at or after its end opens the next. */
  function WindowAfter(times: seq<int>, windowMs: int): Option<Entry> {
    if times == [] then None
    else Some(Next(WindowAfter(times[..|times| - 1], windowMs), times[|times| - 1], windowMs))
  }

  function Next(window: Option<Entry>, now: int, windowMs: int): Entry {
    if window.None? || window.value.resetAt <= now then Entry(1, now + windowMs)
    else Entry(window.value.count + 1, window.value.resetAt)
  }

  /** The rule: a window's opening request passes, then up to `limit` in all. */
  predicate Admits(window: Entry, limit: int) {
    window.count == 1 || window.count <= limit
  }

  predicate AdmittedNow(times: seq<int>, now: int, limit: int, windowMs: int) {
    Admits(Next(WindowAfter(times, windowMs), now, windowMs), limit)
  }

  /** Whole seconds, rounded up. */
  function CeilSeconds(ms: int): int {
    if ms % 1000 == 0 then ms / 1000 else ms / 1000 + 1
  }

  function VerdictOn(window: Entry, now: int, limit: int): Verdict {
    if Admits(window, limit) then
      Verdict(true, 0, if window.count == 1 then limit - 1 else limit - window.count)
    else Verdict(false, Max(CeilSeconds(window.resetAt - now), 1), 0)
  }

  predicate InOrder(times: seq<int>) {
    forall i, j :: 0 <= i < j < |times| ==> times[i] <= times[j]
  }

  /** How many requests from `from` on were admitted. */
  function AdmittedFrom(times: seq<int>, from: int, limit: int, windowMs: int): nat {
    if times == [] then 0
    else
      var before := times[..|times| - 1];
      var now := times[|times| - 1];
      AdmittedFrom(before, from, limit, windowMs)
      + (if from <= now && AdmittedNow(before, now, limit, windowMs) then 1 else 0)
  }

  lemma {:induction false} NoneAdmittedYet(times: seq<int>, from: int, limit: int, windowMs: int)
    requires forall i :: 0 <= i < |times| ==> times[i] < from
    ensures AdmittedFrom(times, from, limit, windowMs) == 0
  {
    if times != [] {
      NoneAdmittedYet(times[..|times| - 1], from, limit, windowMs);
    }
  }

  /** A window opened before `from` admits at most the allowance; with one opened since, at most one allowance more. */
  ghost predicate Bounded(times: seq<int>, from: int, limit: int, windowMs: int) {
    times == [] ||
      var window := WindowAfter(times, windowMs).value;
      var allowance := Max(limit, 1);
      && window.count >= 1
      && AdmittedFrom(times, from, limit, windowMs) <=
           (if window.resetAt - windowMs < from then 0 else allowance) + Min(window.count, allowance)
  }

  lemma {:induction false} WindowsBound(times: seq<int>, from: int, limit: int, windowMs: int)
    requires InOrder(times) && forall i :: 0 <= i < |times| ==> times[i] < from + windowMs
    ensures Bounded(times, from, limit, windowMs)
  {
    if times != [] {
      var before := times[..|times| - 1];
      WindowsBound(before, from, limit, windowMs);
      if times[|times| - 1] < from {
        NoneAdmittedYet(before, from, limit, windowMs);
      }
    }
  }

  /** No half-open stretch as long as the window ever admits more than two allowances. */
  lemma TwoAllowancesPerInterval(times: seq<int>, from: int, limit: int, windowMs: int)
    requires InOrder(times) && forall i :: 0 <= i < |times| ==> times[i] < from + windowMs
    ensures AdmittedFrom(times, from, limit, windowMs) <= 2 * Max(limit, 1)
  {
    WindowsBound(times, from, limit, windowMs);
  }

  lemma {:induction false} AllBeforeReset(times: seq<int>, windowMs: int)
    requires InOrder(times) && times != [] && windowMs > 0
    ensures forall i :: 0 <= i < |times| ==> times[i] < WindowAfter(times, windowMs).value.resetAt
  {
    if |times| > 1 {
      AllBeforeReset(times[..|times| - 1], windowMs);
    }
  }

  /** `since[0]` opens a window after `before`, and the rest of `since` falls inside it. */
  ghost predicate OneWindow(before: seq<int>, since: seq<int>, windowMs: int) {
    && since != []
    && (before != [] ==> WindowAfter(before, windowMs).value.resetAt <= since[0])
    && forall i :: 0 <= i < |since| ==> since[i] < since[0] + windowMs
  }

  lemma WindowAfterSnoc(times: seq<int>, now: int, windowMs: int)
    ensures WindowAfter(times + [now], windowMs) == Some(Next(WindowAfter(times, windowMs), now, windowMs))
  {
    assert (times + [now])[..|times|] == times;
  }

  lemma AdmittedFromSnoc(times: seq<int>, now: int, from: int, limit: int, windowMs: int)
    ensures AdmittedFrom(times + [now], from, limit, windowMs)
         == AdmittedFrom(times, from, limit, windowMs) +
            (if from <= now && AdmittedNow(times, now, limit, windowMs) then 1 else 0)
  {
    assert (times + [now])[..|times|] == times;
  }

  /** After the n-th request of a window opened at `from`. */
  predicate Counted(times: seq<int>, from: int, n: nat, limit: int, windowMs: int) {
    && WindowAfter(times, windowMs) == Some(Entry(n, from + windowMs))
    && AdmittedFrom(times, from, limit, windowMs) == Min(n, Max(limit, 1))
  }

  lemma WindowOpens(times: seq<int>, now: int, limit: int, windowMs: int)
    requires times != [] ==> WindowAfter(times, windowMs).value.resetAt <= now
    requires forall i :: 0 <= i < |times| ==> times[i] < now
    ensures Counted(times + [now], now, 1, limit, windowMs)
  {
    WindowAfterSnoc(times, now, windowMs);
    AdmittedFromSnoc(times, now, now, limit, windowMs);
    NoneAdmittedYet(times, now, limit, windowMs);
  }

  lemma WindowGoesOn(times: seq<int>, now: int, from: int, n: nat, limit: int, windowMs: int)
    requires Counted(times, from, n, limit, windowMs) && from <= now < from + windowMs && n >= 1
    ensures Counted(times + [now], from, n + 1, limit, windowMs)
  {
    WindowAfterSnoc(times, now, windowMs);
    AdmittedFromSnoc(times, now, from, limit, windowMs);
  }

  lemma {:induction false} AdmittedInWindow(before: seq<int>, since: seq<int>, n: nat, limit: int, windowMs: int)
    requires OneWindow(before, since, windowMs) && 1 <= n <= |since|
    requires forall i :: 0 <= i < |before| ==> before[i] < since[0]
    requires forall i :: 0 <= i < |since| ==> since[0] <= since[i]
    ensures Counted(before + since[..n], since[0], n, limit, windowMs)
    decreases n
  {
    if n == 1 {
      assert since[..n] == [since[0]];
      WindowOpens(before, since[0], limit, windowMs);
    } else {
      AdmittedInWindow(before, since, n - 1, limit, windowMs);
      WindowGoesOn(before + since[..n - 1], since[n - 1], since[0], n - 1, limit, windowMs);
      assert before + since[..n] == (before + since[..n - 1]) + [since[n - 1]];
    }
  }

  /** From the moment a window opens until it ends, exactly the first allowance of requests is admitted. */
  lemma OneAllowancePerWindow(before: seq<int>, since: seq<int>, limit: int, windowMs: int)
    requires InOrder(before) && InOrder(since) && OneWindow(before, since, windowMs)
    ensures AdmittedFrom(before + since, since[0], limit, windowMs) == Min(|since|, Max(limit, 1))
  {
    if before != [] {
      AllBeforeReset(before, windowMs);
    }
    AdmittedInWindow(before, since, |since|, limit, windowMs);
    assert since[..|since|] == since;
  }

  /**
   * What the n-th request of a window is told: in while the allowance lasts, what is
   * left of it, and otherwise the fewest whole seconds, one at least, that reach the window's end.
   */
  lemma AnswersInAWindow(before: seq<int>, since: seq<int>, n: nat, limit: int, windowMs: int)
    requires InOrder(before) && InOrder(since) && OneWindow(before, since, windowMs) && 1 <= n <= |since|
    ensures var now, left := since[n - 1], since[0] + windowMs - since[n - 1];
            var told := VerdictOn(Next(WindowAfter(before + since[..n - 1], windowMs), now, windowMs), now, limit);
      && (told.allowed <==> n == 1 || n <= limit)
      && told.remaining == (if n == 1 || n <= limit then limit - n else 0)
      && (told.allowed ==> told.retryAfterSeconds == 0)
      && (!told.allowed ==> var s := told.retryAfterSeconds;
                            s >= 1 && left <= 1000 * s && (s == 1 || 1000 * (s - 1) < left))
  {
    if before != [] {
      AllBeforeReset(before, windowMs);
    }
    AdmittedInWindow(before, since, n, limit, windowMs);
    assert before + since[..n] == (before + since[..n - 1]) + [since[n - 1]];
    WindowAfterSnoc(before + since[..n - 1], since[n - 1], windowMs);
    assert Next(WindowAfter(before + since[..n - 1], windowMs), since[n - 1], windowMs)
        == Entry(n, since[0] + windowMs);
  }

  /** A refused caller that waits the seconds it was told, with nothing else on its key, is let in. */
  lemma RetryAfterIsHonoured(times: seq<int>, now: int, later: int, limit: int, windowMs: int)
    requires !AdmittedNow(times, now, limit, windowMs)
    requires var verdict := VerdictOn(Next(WindowAfter(times, windowMs), now, windowMs), now, limit);
             later >= now + 1000 * verdict.retryAfterSeconds
    ensures AdmittedNow(times + [now], later, limit, windowMs)
  {
    var told := VerdictOn(Next(WindowAfter(times, windowMs), now, windowMs), now, limit).retryAfterSeconds;
    assert (times + [now])[..|times|] == times;
  }

  // ------------------------------------------------------------- the limiter

  const SWEEP_ABOVE: nat := 10_000

  type Hits = map<string, Entry>

  /** A kept entry is the history's window; a forgotten one is a window that had ended by `now`. */
  ghost predicate Agrees(hits: Hits, history: seq<Hit>, windowMs: int, key: string, now: int) {
    var window := WindowAfter(TimesOf(history, key), windowMs);
    if key in hits then window == Some(hits[key]) else window.Some? ==> window.value.resetAt <= now
  }

  ghost predicate Stands(hits: Hits, history: seq<Hit>, windowMs: int, now: int) {
    forall key :: Agrees(hits, history, windowMs, key, now)
  }

  lemma StandsLater(hits: Hits, history: seq<Hit>, windowMs: int, now: int)
    requires Stands(hits, history, windowMs, now)
    ensures forall later :: now <= later ==> Stands(hits, history, windowMs, later)
  {
    forall later, key | now <= later ensures Agrees(hits, history, windowMs, key, later) {
      assert Agrees(hits, history, windowMs, key, now);
    }
  }

  lemma TimesOfSnoc(history: seq<Hit>, hit: Hit, key: string)
    ensures TimesOf(history + [hit], key) == if hit.key == key then TimesOf(history, key) + [hit.at]
        else TimesOf(history, key)
  {
    assert (history + [hit])[..|history|] == history;
  }

  /** The window the map yields on a request is the window the history yields. */
  lemma SameNext(hits: Hits, history: seq<Hit>, windowMs: int, key: string, now: int)
    requires Stands(hits, history, windowMs, now)
    ensures Next(WindowAfter(TimesOf(history, key), windowMs), now, windowMs)
         == Next(if key in hits then Some(hits[key]) else None, now, windowMs)
  {
    assert Agrees(hits, history, windowMs, key, now);
  }

  lemma StandsRecorded(hits: Hits, history: seq<Hit>, windowMs: int, key: string, now: int, window: Entry)
    requires Stands(hits, history, windowMs, now)
    requires window == Next(WindowAfter(TimesOf(history, key), windowMs), now, windowMs)
    ensures Stands(hits[key := window], history + [Hit(key, now)], windowMs, now)
  {
    var kept, asked := hits[key := window], history + [Hit(key, now)];
    forall k ensures Agrees(kept, asked, windowMs, k, now) {
      assert Agrees(hits, history, windowMs, k, now);
      TimesOfSnoc(history, Hit(key, now), k);
      WindowAfterSnoc(TimesOf(history, key), now, windowMs);
    }
  }

  lemma StandsForgotten(hits: Hits, history: seq<Hit>, windowMs: int, key: string, now: int)
    requires Stands(hits, history, windowMs, now)
    requires key in hits && hits[key].resetAt <= now
    ensures Stands(hits - {key}, history, windowMs, now)
  {
    forall k ensures Agrees(hits - {key}, history, windowMs, k, now) {
      assert Agrees(hits, history, windowMs, k, now);
    }
  }

  lemma {:induction false} CountsUp(times: seq<int>, windowMs: int)
    ensures times != [] ==> WindowAfter(times, windowMs).value.count >= 1
  {
    if times != [] {
      CountsUp(times[..|times| - 1], windowMs);
    }
  }

  class FixedWindowLimiter {
    const limit: int
    const windowMs: int
    var hits: Hits
    ghost var history: seq<Hit>

    /** The map stands for the history, sweeping included, from `now` on. */
    ghost predicate Valid(now: int)
      reads this
    {
      Stands(hits, history, windowMs, now)
    }

    constructor (limit: int, windowMs: int)
      ensures this.limit == limit && this.windowMs == windowMs
      ensures history == [] && forall now :: Valid(now)
    {
      this.limit, this.windowMs := limit, windowMs;
      hits, history := map[], [];
    }

    /** Records one request and answers as the history says; time never runs backwards. */
    method Take(key: string, now: int) returns (verdict: Verdict)
      requires Valid(now)
      modifies this
      ensures (forall later :: now <= later ==> Valid(later)) && history == old(history) + [Hit(key, now)]
      ensures verdict == VerdictOn(Next(WindowAfter(TimesOf(old(history), key), windowMs), now, windowMs), now, limit)
      ensures var window := Next(WindowAfter(TimesOf(old(history), key), windowMs), now, windowMs);
              var kept := old(hits)[key := window];
              hits == if window.count == 1 && |kept| > 10_000 then map k | k in kept && kept[k].resetAt > now :: kept[k]
                      else kept
    {
      ghost var window := Next(WindowAfter(TimesOf(history, key), windowMs), now, windowMs);
      SameNext(hits, history, windowMs, key, now);
      StandsRecorded(hits, history, windowMs, key, now, window);
      if key !in hits || hits[key].resetAt <= now {
        history := history + [Hit(key, now)];
        hits := hits[key := Entry(1, now + windowMs)];
        if |hits| > SWEEP_ABOVE {
          Sweep(now);
        }
        StandsLater(hits, history, windowMs, now);
        return Verdict(true, 0, limit - 1);
      }
      assert Agrees(hits, history, windowMs, key, now);
      CountsUp(TimesOf(history, key), windowMs);
      var entry := Entry(hits[key].count + 1, hits[key].resetAt);
      history := history + [Hit(key, now)];
      hits := hits[key := entry];
      StandsLater(hits, history, windowMs, now);
      var remaining := Max(limit - entry.count, 0);
      if entry.count > limit {
        return Verdict(false, Max(CeilSeconds(entry.resetAt - now), 1), remaining);
      }
      return Verdict(true, 0, remaining);
    }

    /** Forgets every window that has ended, and nothing else. */
    method Sweep(now: int)
      requires Valid(now)
      modifies this`hits
      ensures Valid(now)
      ensures hits == map key | key in old(hits) && old(hits)[key].resetAt > now :: old(hits)[key]
    {
      var keys := hits.Keys;
      ghost var was := hits;
      while keys != {}
        invariant keys <= was.Keys
        invariant Stands(hits, history, windowMs, now)
        invariant forall key :: key in hits <==> key in was && (key in keys || was[key].resetAt > now)
        invariant forall key :: key in hits ==> hits[key] == was[key]
        decreases |keys|
      {
        var key :| key in keys;
        keys := keys - {key};
        if hits[key].resetAt <= now {
          StandsForgotten(hits, history, windowMs, key, now);
          hits := hits - {key};
        }
      }
    }
  }
}
