/**
 * The lockout of an account: eight wrong passwords in a row lock it, and the
 * count is not forgotten when a lock runs out, so each later guess locks again.
 * The counter is read before a password is checked and written after, so
 * attempts that overlap are counted once.
 */
module LoginLockout {
  import opened DailyQuota
  import opened Options

  const MAX_FAILED_LOGINS: nat := 8
  const LOCKOUT_MINUTES: int := 15
  /** The lock in milliseconds, as every time here. */
  const LOCKOUT: int := 900_000

  datatype Counter = Counter(failed: nat, lockedUntil: Option<int>)

  datatype Answer = Locked | Wrong | SignedIn

  predicate IsLocked(c: Counter, now: int) {
    c.lockedUntil.Some? && c.lockedUntil.value > now
  }

  function AfterWrong(c: Counter, now: int): Counter {
    var failures := c.failed + 1;
    Counter(failures, if failures >= MAX_FAILED_LOGINS then Some(now + LOCKOUT) else None)
  }

  function AnswerTo(c: Counter, now: int, matches: bool): Answer {
    if IsLocked(c, now) then Locked else if matches then SignedIn else Wrong
  }

  function After(c: Counter, now: int, matches: bool): Counter {
    match AnswerTo(c, now, matches)
    case Locked => c
    case Wrong => AfterWrong(c, now)
    case SignedIn => Counter(0, None)
  }

  class Account {
    var failedLoginCount: nat
    var lockedUntil: Option<int>

    constructor ()
      ensures failedLoginCount == 0 && lockedUntil == None
    {
      failedLoginCount, lockedUntil := 0, None;
    }

    function State(): Counter
      reads this
    {
      Counter(failedLoginCount, lockedUntil)
    }

    /** One attempt on an active account that has a password; `matches` is what checking it would say. */
    method Login(now: int, matches: bool) returns (answer: Answer)
      modifies this
      ensures answer == AnswerTo(old(State()), now, matches)
      ensures State() == After(old(State()), now, matches)
      ensures var locked := old(lockedUntil).Some? && now < old(lockedUntil).value;
        && (answer == Locked <==> locked) && (answer == SignedIn <==> !locked && matches)
        && (locked ==> failedLoginCount == old(failedLoginCount) && lockedUntil == old(lockedUntil))
        && (!locked && matches ==> failedLoginCount == 0 && lockedUntil == None)
        && (!locked && !matches ==>
              && failedLoginCount == old(failedLoginCount) + 1
              && lockedUntil == if failedLoginCount < 8 then None else Some(now + 15 * 60 * 1000))
    {
      if lockedUntil.Some? && lockedUntil.value > now {
        return Locked;
      }
      if !matches {
        var failures := failedLoginCount + 1;
        var until := if failures >= MAX_FAILED_LOGINS then Some(now + LOCKOUT_MINUTES * 60_000) else None;
        failedLoginCount, lockedUntil := failures, until;
        return Wrong;
      }
      failedLoginCount, lockedUntil := 0, None;
      return SignedIn;
    }
  }

  // -------------------------------------------------------------- a stretch

  datatype Attempt = Attempt(at: int, matches: bool)

  predicate InOrder(attempts: seq<Attempt>) {
    forall i, j :: 0 <= i < j < |attempts| ==> attempts[i].at <= attempts[j].at
  }

  function Played(c: Counter, attempts: seq<Attempt>): Counter {
    if attempts == [] then c
    else
      var last := attempts[|attempts| - 1];
      After(Played(c, attempts[..|attempts| - 1]), last.at, last.matches)
  }

  /** Attempts among which none signs in. */
  predicate NoSuccess(c: Counter, attempts: seq<Attempt>) {
    attempts == [] ||
      var before := attempts[..|attempts| - 1];
      var last := attempts[|attempts| - 1];
      NoSuccess(c, before) && AnswerTo(Played(c, before), last.at, last.matches) != SignedIn
  }

  /** How many passwords were checked, and found wrong, from `from` to `to`, both included. */
  function Checked(c: Counter, attempts: seq<Attempt>, from: int, to: int): nat {
    if attempts == [] then 0
    else
      var before := attempts[..|attempts| - 1];
      var last := attempts[|attempts| - 1];
      Checked(c, before, from, to)
      + (if from <= last.at <= to && AnswerTo(Played(c, before), last.at, last.matches) == Wrong then 1 else 0)
  }

  /** True of a new account, and kept by every attempt: there is a lock exactly from the eighth failure on. */
  predicate Consistent(c: Counter) {
    c.lockedUntil.Some? <==> c.failed >= MAX_FAILED_LOGINS
  }

  /** Signing in included: an account is always in a state the bound starts from. */
  lemma {:induction false} AlwaysConsistent(attempts: seq<Attempt>)
    ensures Consistent(Played(Counter(0, None), attempts))
  {
    if attempts != [] {
      AlwaysConsistent(attempts[..|attempts| - 1]);
    }
  }

  /** Before the eighth failure the count bounds what was checked; after it, the spacing of the locks does. */
  predicate Paced(c: Counter, checked: nat, from: int) {
    && Consistent(c)
    && (c.failed < MAX_FAILED_LOGINS ==> checked <= c.failed)
    && (c.failed >= MAX_FAILED_LOGINS ==>
          var last := c.lockedUntil.value - LOCKOUT;
          if last < from then checked == 0 else checked <= 8 + (last - from) / LOCKOUT)
  }

  lemma OneMoreIsPaced(c: Counter, checked: nat, from: int, now: int, counts: bool)
    requires Paced(c, checked, from) && !IsLocked(c, now)
    requires counts <==> from <= now
    requires !counts ==> checked == 0
    ensures Paced(AfterWrong(c, now), if counts then checked + 1 else checked, from)
  {
    if c.failed >= MAX_FAILED_LOGINS && counts {
      var last := c.lockedUntil.value - LOCKOUT;
      assert now >= last + LOCKOUT;
      if last >= from {
        assert (now - from) / LOCKOUT >= (last - from + LOCKOUT) / LOCKOUT == (last - from) / LOCKOUT + 1;
      }
    }
  }

  lemma {:induction false} NothingBefore(c: Counter, attempts: seq<Attempt>, from: int, to: int)
    requires forall i :: 0 <= i < |attempts| ==> attempts[i].at < from
    ensures Checked(c, attempts, from, to) == 0
  {
    if attempts != [] {
      NothingBefore(c, attempts[..|attempts| - 1], from, to);
    }
  }

  lemma {:induction false} StretchIsPaced(c: Counter, attempts: seq<Attempt>, from: int, to: int)
    requires Consistent(c) && InOrder(attempts) && NoSuccess(c, attempts)
    requires forall i :: 0 <= i < |attempts| ==> attempts[i].at <= to
    ensures Paced(Played(c, attempts), Checked(c, attempts, from, to), from)
    decreases |attempts|
  {
    if attempts != [] {
      var before := attempts[..|attempts| - 1];
      var last := attempts[|attempts| - 1];
      StretchIsPaced(c, before, from, to);
      if AnswerTo(Played(c, before), last.at, last.matches) == Wrong {
        if last.at < from {
          NothingBefore(c, before, from, to);
        }
        OneMoreIsPaced(Played(c, before), Checked(c, before, from, to), from, last.at, from <= last.at);
      }
    }
  }

  lemma {:induction false} LaterAddsNothing(c: Counter, attempts: seq<Attempt>, from: int, to: int, n: nat)
    requires n <= |attempts| && forall i :: n <= i < |attempts| ==> attempts[i].at > to
    ensures Checked(c, attempts, from, to) == Checked(c, attempts[..n], from, to)
    decreases |attempts|
  {
    if n == |attempts| {
      assert attempts[..n] == attempts;
    } else {
      var before := attempts[..|attempts| - 1];
      LaterAddsNothing(c, before, from, to, n);
      assert before[..n] == attempts[..n];
    }
  }

  lemma {:induction false} StretchBegins(c: Counter, attempts: seq<Attempt>, n: nat)
    requires n <= |attempts| && NoSuccess(c, attempts)
    ensures NoSuccess(c, attempts[..n])
    decreases |attempts|
  {
    if n == |attempts| {
      assert attempts[..n] == attempts;
    } else {
      var before := attempts[..|attempts| - 1];
      StretchBegins(c, before, n);
      assert before[..n] == attempts[..n];
    }
  }

  function UpTo(attempts: seq<Attempt>, to: int): (n: nat)
    requires InOrder(attempts)
    ensures n <= |attempts|
    ensures forall i :: 0 <= i < n ==> attempts[i].at <= to
    ensures forall i :: n <= i < |attempts| ==> attempts[i].at > to
  {
    if attempts == [] then 0
    else if attempts[|attempts| - 1].at <= to then |attempts|
    else UpTo(attempts[..|attempts| - 1], to)
  }

  /**
   * In any stretch of attempts with no sign-in, from whatever the account had
   * come to, at most 8 + floor(T / 15 minutes) wrong passwords are checked
   * within any T.
   */
  lemma GuessesAreBounded(c: Counter, attempts: seq<Attempt>, from: int, length: nat)
    requires Consistent(c) && InOrder(attempts) && NoSuccess(c, attempts)
    ensures Checked(c, attempts, from, from + length) <= 8 + length / 900_000
  {
    var to := from + length;
    var n := UpTo(attempts, to);
    var shown := attempts[..n];
    LaterAddsNothing(c, attempts, from, to, n);
    StretchBegins(c, attempts, n);
    StretchIsPaced(c, shown, from, to);
    LastIsWithin(c, shown, to);
  }

  /** A lock that began during the stretch began at one of its attempts. */
  lemma {:induction false} LastIsWithin(c: Counter, attempts: seq<Attempt>, to: int)
    requires Consistent(c) && InOrder(attempts) && NoSuccess(c, attempts)
    requires forall i :: 0 <= i < |attempts| ==> attempts[i].at <= to
    ensures var end := Played(c, attempts);
            end == c || (end.lockedUntil.Some? ==> end.lockedUntil.value <= to + LOCKOUT)
    ensures Played(c, attempts) == c ==> forall from :: Checked(c, attempts, from, to) == 0
    decreases |attempts|
  {
    if attempts != [] {
      LastIsWithin(c, attempts[..|attempts| - 1], to);
      CountNeverFalls(c, attempts[..|attempts| - 1]);
    }
  }

  lemma {:induction false} CountNeverFalls(c: Counter, attempts: seq<Attempt>)
    requires NoSuccess(c, attempts)
    ensures Played(c, attempts).failed >= c.failed
    decreases |attempts|
  {
    if attempts != [] {
      CountNeverFalls(c, attempts[..|attempts| - 1]);
    }
  }

  // --------------------------------------------------------- the bound is met

  /** Eight guesses at once, then one each time the lock runs out. */
  function Persistent(locks: nat): seq<Attempt> {
    if locks == 0 then seq(8, _ => Attempt(0, false))
    else Persistent(locks - 1) + [Attempt(locks * LOCKOUT, false)]
  }

  lemma {:induction false} SomeAtOnce(n: nat, to: nat)
    requires n <= 8
    ensures var attempts := seq(n, _ => Attempt(0, false));
      && Played(Counter(0, None), attempts) == Counter(n, if n == 8 then Some(LOCKOUT) else None)
      && Checked(Counter(0, None), attempts, 0, to) == n
      && NoSuccess(Counter(0, None), attempts)
  {
    if n > 0 {
      SomeAtOnce(n - 1, to);
      var attempts := seq(n, _ => Attempt(0, false));
      assert attempts[..n - 1] == seq(n - 1, _ => Attempt(0, false));
    }
  }

  lemma WrongWhenUnlocked(c: Counter, attempts: seq<Attempt>, at: int, from: int, to: int)
    requires NoSuccess(c, attempts) && !IsLocked(Played(c, attempts), at) && from <= at <= to
    ensures NoSuccess(c, attempts + [Attempt(at, false)])
    ensures Played(c, attempts + [Attempt(at, false)]) == AfterWrong(Played(c, attempts), at)
    ensures Checked(c, attempts + [Attempt(at, false)], from, to) == Checked(c, attempts, from, to) + 1
  {
    assert (attempts + [Attempt(at, false)])[..|attempts|] == attempts;
  }

  /** How a persistent guesser stands after some locks. */
  predicate Stands(attempts: seq<Attempt>, locks: nat, to: int) {
    && NoSuccess(Counter(0, None), attempts)
    && Played(Counter(0, None), attempts) == Counter(8 + locks, Some((locks + 1) * LOCKOUT))
    && Checked(Counter(0, None), attempts, 0, to) == 8 + locks
  }

  lemma OneMoreLock(attempts: seq<Attempt>, locks: nat, to: int)
    requires Stands(attempts, locks, to) && to >= (locks + 1) * LOCKOUT
    ensures Stands(attempts + [Attempt((locks + 1) * LOCKOUT, false)], locks + 1, to)
  {
    WrongWhenUnlocked(Counter(0, None), attempts, (locks + 1) * LOCKOUT, 0, to);
  }

  lemma {:induction false} StandsAfter(locks: nat, to: int)
    requires to >= locks * LOCKOUT
    ensures Stands(Persistent(locks), locks, to)
    decreases locks
  {
    if locks == 0 {
      SomeAtOnce(8, to);
    } else {
      StandsAfter(locks - 1, to);
      OneMoreLock(Persistent(locks - 1), locks - 1, to);
    }
  }

  /** The bound is met for every number of locks: the quarter hours alone are what slow a guesser down. */
  lemma BoundIsMet(locks: nat, to: int)
    requires to >= locks * 900_000
    ensures NoSuccess(Counter(0, None), Persistent(locks))
    ensures Played(Counter(0, None), Persistent(locks)) == Counter(8 + locks, Some((locks + 1) * 900_000))
    ensures Checked(Counter(0, None), Persistent(locks), 0, to) == 8 + locks
  {
    StandsAfter(locks, to);
  }

  // ------------------------------------------------------ attempts that overlap

  /** An attempt let through: the failures it read, and what checking its password will say. */
  datatype Pending = Pending(failed: nat, matches: bool)

  /** `checked` is when each wrong password was found wrong. */
  datatype World = World(account: Counter, inFlight: seq<Option<Pending>>, checked: seq<int>, clock: int)

  /** `Reset` is a new password installed by a mailed link, which forgets every failure. */
  datatype Step = Receive(matches: bool, at: int) | Finish(i: nat, at: int) | Stop(i: nat) | Reset(at: int)

  predicate Enabled(w: World, step: Step) {
    match step
    case Receive(_, at) => w.clock <= at
    case Finish(i, at) => i < |w.inFlight| && w.inFlight[i].Some? && w.clock <= at
    case Stop(i) => i < |w.inFlight|
    case Reset(at) => w.clock <= at
  }

  /** The counter is written from what was read when the attempt came in. */
  function Apply(w: World, step: Step): World
    requires Enabled(w, step)
  {
    match step
    case Receive(matches, at) =>
      if IsLocked(w.account, at) then w.(clock := at)
      else w.(inFlight := w.inFlight + [Some(Pending(w.account.failed, matches))], clock := at)
    case Finish(i, at) =>
      var p, left := w.inFlight[i].value, w.inFlight[i := None];
      if p.matches then World(Counter(0, None), left, w.checked, at)
      else World(AfterWrong(Counter(p.failed, None), at), left, w.checked + [at], at)
    case Stop(i) => w.(inFlight := w.inFlight[i := None])
    case Reset(at) => w.(account := Counter(0, None), clock := at)
  }

  predicate CanRun(w: World, steps: seq<Step>)
    decreases |steps|
  {
    steps == [] || (Enabled(w, steps[0]) && CanRun(Apply(w, steps[0]), steps[1..]))
  }

  function Run(w: World, steps: seq<Step>): World
    requires CanRun(w, steps)
    decreases |steps|
  {
    if steps == [] then w else Run(Apply(w, steps[0]), steps[1..])
  }

  /** With nothing in between, receiving and finishing is one attempt. */
  lemma AloneIsOneAttempt(w: World, matches: bool, at: int)
    requires w.clock <= at
    ensures var received := Apply(w, Receive(matches, at));
            var i := |w.inFlight|;
            var done := if IsLocked(w.account, at) then received else Apply(received, Finish(i, at));
            done.account == After(w.account, at, matches)
  {
  }

  /** Steps that finish what is under way. */
  predicate Ends(steps: seq<Step>) {
    forall i :: 0 <= i < |steps| ==> steps[i].Finish? || steps[i].Stop?
  }

  /** Locked, for at least as long as this. */
  predicate LockedFrom(c: Counter, until: int) {
    c.lockedUntil.Some? && c.lockedUntil.value >= until
  }

  /** An attempt whose writing would lift a lock: right, or read before the seventh failure. */
  predicate Lifts(p: Option<Pending>) {
    p.Some? && (p.value.matches || p.value.failed + 1 < MAX_FAILED_LOGINS)
  }

  predicate NoneLifts(w: World) {
    forall i :: 0 <= i < |w.inFlight| ==> !Lifts(w.inFlight[i])
  }

  lemma {:induction false} LockStays(w: World, steps: seq<Step>, until: int)
    requires LockedFrom(w.account, until) && until <= w.clock + LOCKOUT && NoneLifts(w)
    requires CanRun(w, steps) && Ends(steps)
    ensures LockedFrom(Run(w, steps).account, until)
    decreases |steps|
  {
    if steps != [] {
      assert steps[0].Finish? ==> !Lifts(w.inFlight[steps[0].i]);
      LockStays(Apply(w, steps[0]), steps[1..], until);
    }
  }

  lemma OneStep(w: World, step: Step)
    requires Enabled(w, step)
    ensures CanRun(w, [step]) && Run(w, [step]) == Apply(w, step)
  {
    assert [step][1..] == [];
    assert CanRun(Apply(w, step), []);
  }

  /**
   * However the attempts under way end, a lock stands for its time exactly when
   * none of them is right or read the count before the seventh failure.
   */
  lemma LockHoldsIff(w: World, until: int)
    requires LockedFrom(w.account, until) && until <= w.clock + LOCKOUT
    ensures (forall steps :: CanRun(w, steps) && Ends(steps) ==> LockedFrom(Run(w, steps).account, until))
       <==> NoneLifts(w)
  {
    if NoneLifts(w) {
      forall steps | CanRun(w, steps) && Ends(steps) ensures LockedFrom(Run(w, steps).account, until) {
        LockStays(w, steps, until);
      }
    } else {
      var i :| 0 <= i < |w.inFlight| && Lifts(w.inFlight[i]);
      OneStep(w, Finish(i, w.clock));
      assert !LockedFrom(Run(w, [Finish(i, w.clock)]).account, until);
    }
  }

  /** How many wrong passwords are still to be checked. */
  function Guessing(inFlight: seq<Option<Pending>>): nat {
    if inFlight == [] then 0
    else
      var last := inFlight[|inFlight| - 1];
      Guessing(inFlight[..|inFlight| - 1]) + (if last.Some? && !last.value.matches then 1 else 0)
  }

  lemma {:induction false} DoneIsOneFewer(inFlight: seq<Option<Pending>>, i: nat)
    requires i < |inFlight|
    ensures Guessing(inFlight) ==
            Guessing(inFlight[i := None]) + (if inFlight[i].Some? && !inFlight[i].value.matches then 1 else 0)
    decreases |inFlight|
  {
    var n := |inFlight| - 1;
    if i < n {
      DoneIsOneFewer(inFlight[..n], i);
      assert inFlight[i := None][..n] == inFlight[..n][i := None];
    } else {
      assert inFlight[i := None][..n] == inFlight[..n];
    }
  }

  function GuessesDue(w: World, from: int): nat {
    CountSince(w.checked, from) + Guessing(w.inFlight)
  }

  lemma EndingCounts(w: World, step: Step, from: int)
    requires Enabled(w, step) && (step.Finish? || step.Stop?)
    ensures GuessesDue(Apply(w, step), from) <= GuessesDue(w, from)
    ensures step.Finish? && from <= step.at ==> GuessesDue(Apply(w, step), from) == GuessesDue(w, from)
  {
    DoneIsOneFewer(w.inFlight, step.i);
    if step.Finish? {
      CountSnoc(w.checked, step.at, from, 0);
    }
  }

  lemma {:induction false} NoMoreThanDue(w: World, steps: seq<Step>, from: int)
    requires CanRun(w, steps) && Ends(steps)
    ensures CountSince(Run(w, steps).checked, from) <= GuessesDue(w, from)
    decreases |steps|
  {
    if steps != [] {
      EndingCounts(w, steps[0], from);
      NoMoreThanDue(Apply(w, steps[0]), steps[1..], from);
    }
  }

  lemma {:induction false} SomeoneGuesses(inFlight: seq<Option<Pending>>) returns (i: nat)
    requires Guessing(inFlight) > 0
    ensures i < |inFlight| && inFlight[i].Some? && !inFlight[i].value.matches
    decreases |inFlight|
  {
    i := |inFlight| - 1;
    if inFlight[i].None? || inFlight[i].value.matches {
      i := SomeoneGuesses(inFlight[..i]);
    }
  }

  lemma FirstThen(w: World, step: Step, rest: seq<Step>)
    requires Enabled(w, step) && CanRun(Apply(w, step), rest)
    ensures CanRun(w, [step] + rest) && Run(w, [step] + rest) == Run(Apply(w, step), rest)
  {
    assert ([step] + rest)[1..] == rest;
  }

  lemma {:induction false} AllAreChecked(w: World, from: int) returns (steps: seq<Step>)
    requires from <= w.clock
    ensures CanRun(w, steps) && Ends(steps)
    ensures CountSince(Run(w, steps).checked, from) == GuessesDue(w, from)
    decreases Guessing(w.inFlight)
  {
    steps := [];
    if Guessing(w.inFlight) > 0 {
      var i := SomeoneGuesses(w.inFlight);
      DoneIsOneFewer(w.inFlight, i);
      EndingCounts(w, Finish(i, w.clock), from);
      var rest := AllAreChecked(Apply(w, Finish(i, w.clock)), from);
      steps := [Finish(i, w.clock)] + rest;
      FirstThen(w, Finish(i, w.clock), rest);
    }
  }

  /**
   * However the attempts under way end, at most n wrong passwords are checked
   * from a moment on, exactly when those checked since then and those under way
   * are at most n together.
   */
  lemma GuessesEndIff(w: World, from: int, n: nat)
    requires from <= w.clock
    ensures (forall steps :: CanRun(w, steps) && Ends(steps) ==> CountSince(Run(w, steps).checked, from) <= n)
       <==> GuessesDue(w, from) <= n
  {
    var all := AllAreChecked(w, from);
    forall steps | CanRun(w, steps) && Ends(steps)
      ensures CountSince(Run(w, steps).checked, from) <= GuessesDue(w, from)
    {
      NoMoreThanDue(w, steps, from);
    }
  }

  const NEW: World := World(Counter(0, None), [], [], 0)

  /** All let through before anything was written. */
  predicate ReadNothing(inFlight: seq<Option<Pending>>) {
    forall i :: 0 <= i < |inFlight| && inFlight[i].Some? ==> inFlight[i].value.failed == 0
  }

  /** So many wrong attempts under way on a new account, nothing written yet. */
  predicate AllRead(w: World, n: nat) {
    && w.account == Counter(0, None) && |w.checked| == 0 && w.clock == 0
    && ReadNothing(w.inFlight) && Guessing(w.inFlight) == n
  }

  lemma OneMoreReads(w: World, n: nat)
    requires AllRead(w, n)
    ensures AllRead(Apply(w, Receive(false, 0)), n + 1)
  {
    assert (w.inFlight + [Some(Pending(0, false))])[..|w.inFlight|] == w.inFlight;
  }

  lemma {:induction false} AllReadFirst(w: World, n: nat) returns (steps: seq<Step>)
    requires AllRead(w, 0)
    ensures CanRun(w, steps) && AllRead(Run(w, steps), n)
  {
    steps := [];
    if n > 0 {
      var before := AllReadFirst(w, n - 1);
      OneMoreReads(Run(w, before), n - 1);
      OneStep(Run(w, before), Receive(false, 0));
      Joined(w, before, [Receive(false, 0)]);
      steps := before + [Receive(false, 0)];
    }
  }

  lemma {:induction false} Joined(w: World, a: seq<Step>, b: seq<Step>)
    requires CanRun(w, a) && CanRun(Run(w, a), b)
    ensures CanRun(w, a + b) && Run(w, a + b) == Run(Run(w, a), b)
    decreases |a|
  {
    if a == [] {
      assert a + b == b;
    } else {
      Joined(Apply(w, a[0]), a[1..], b);
      assert (a + b)[1..] == a[1..] + b;
    }
  }

  /** Attempts that all read an untouched counter leave it at one at most, however they end. */
  lemma {:induction false} CountedOnce(w: World, steps: seq<Step>)
    requires w.account.failed <= 1 && w.account.lockedUntil.None? && ReadNothing(w.inFlight)
    requires CanRun(w, steps) && Ends(steps)
    ensures Run(w, steps).account.failed <= 1 && Run(w, steps).account.lockedUntil.None?
    decreases |steps|
  {
    if steps != [] {
      CountedOnce(Apply(w, steps[0]), steps[1..]);
    }
  }

  /**
   * From a new account: any number of overlapping wrong attempts are all checked, and
   * leave it unlocked with one failure at most.
   */
  lemma AnyNumberAtOnce(n: nat, from: int) returns (steps: seq<Step>)
    requires from <= 0
    ensures CanRun(NEW, steps) && CountSince(Run(NEW, steps).checked, from) == n
    ensures Run(NEW, steps).account.failed <= 1 && Run(NEW, steps).account.lockedUntil.None?
  {
    var sent := AllReadFirst(NEW, n);
    var rest := AllAreChecked(Run(NEW, sent), from);
    CountedOnce(Run(NEW, sent), rest);
    Joined(NEW, sent, rest);
    steps := sent + rest;
  }

  // -------------------------------------------------- attempts one at a time

  /** Nothing under way, or one wrong attempt that read the counter as it still is. */
  predicate OneInFlight(w: World) {
    forall i :: 0 <= i < |w.inFlight| && w.inFlight[i].Some? ==>
      && w.inFlight[i].value.failed == w.account.failed && !w.inFlight[i].value.matches
      && !IsLocked(w.account, w.clock)
      && forall j :: 0 <= j < |w.inFlight| && w.inFlight[j].Some? ==> j == i
  }

  predicate NoneInFlight(w: World) {
    forall i :: 0 <= i < |w.inFlight| ==> w.inFlight[i].None?
  }

  /** Wrong attempts, none received before the last is over; a process may stop in one. */
  predicate InTurn(w: World, steps: seq<Step>)
    requires CanRun(w, steps)
    decreases |steps|
  {
    steps == [] ||
    (&& !steps[0].Reset? && (steps[0].Receive? ==> NoneInFlight(w) && !steps[0].matches)
     && InTurn(Apply(w, steps[0]), steps[1..]))
  }

  /** Where the bound stands between any two steps. */
  predicate WithinBound(w: World, from: int) {
    Paced(w.account, CountSince(w.checked, from), from) && OneInFlight(w) && from <= w.clock
    && (w.account.lockedUntil.Some? ==> w.account.lockedUntil.value <= w.clock + LOCKOUT)
  }

  lemma ReceivingKeepsBound(w: World, at: int, from: int)
    requires WithinBound(w, from) && NoneInFlight(w) && w.clock <= at
    ensures WithinBound(Apply(w, Receive(false, at)), from)
  {
  }

  lemma FinishingKeepsBound(w: World, i: nat, at: int, from: int)
    requires WithinBound(w, from) && Enabled(w, Finish(i, at))
    ensures WithinBound(Apply(w, Finish(i, at)), from)
  {
    var p := w.inFlight[i].value;
    assert AfterWrong(Counter(p.failed, None), at) == AfterWrong(w.account, at);
    OneMoreIsPaced(w.account, CountSince(w.checked, from), from, at, true);
    CountSnoc(w.checked, at, from, 0);
  }

  lemma {:induction false} RunKeepsBound(w: World, steps: seq<Step>, from: int)
    requires WithinBound(w, from) && CanRun(w, steps) && InTurn(w, steps)
    ensures WithinBound(Run(w, steps), from)
    decreases |steps|
  {
    if steps != [] {
      match steps[0] {
        case Receive(matches, at) => ReceivingKeepsBound(w, at, from);
        case Finish(i, at) => FinishingKeepsBound(w, i, at, from);
        case _ =>
      }
      RunKeepsBound(Apply(w, steps[0]), steps[1..], from);
    }
  }

  /** Where counting starts: an account as attempts in turn may have left it, and nothing counted yet. */
  predicate Quiet(w: World) {
    && Consistent(w.account) && OneInFlight(w) && |w.checked| == 0
    && (w.account.lockedUntil.Some? ==> w.account.lockedUntil.value <= w.clock + LOCKOUT)
  }

  /**
   * Read and write apart, but one attempt at a time: from a moment on, at any
   * later one, at most 8 + floor(T / 15 minutes) wrong passwords have been
   * checked, T the time between.
   */
  lemma OneAtATimeIsBounded(w: World, steps: seq<Step>)
    requires Quiet(w) && CanRun(w, steps) && InTurn(w, steps)
    ensures var end := Run(w, steps);
            end.clock >= w.clock && CountSince(end.checked, w.clock) <= 8 + (end.clock - w.clock) / 900_000
  {
    var from := w.clock;
    NothingCounted(w.checked, from);
    assert Paced(w.account, 0, from);
    RunKeepsBound(w, steps, from);
  }

  /** Attempts in turn leave an account so, whatever they came to. */
  lemma {:induction false} AttemptsLeaveQuiet(attempts: seq<Attempt>, clock: int)
    requires forall i :: 0 <= i < |attempts| ==> attempts[i].at <= clock
    ensures Quiet(World(Played(Counter(0, None), attempts), [], [], clock))
    decreases |attempts|
  {
    if |attempts| > 0 {
      AttemptsLeaveQuiet(attempts[..|attempts| - 1], clock);
    }
  }

  /** A reset forgets every failure and any lock. */
  lemma ResetForgets(w: World, at: int)
    requires w.clock <= at
    ensures Apply(w, Reset(at)) == w.(account := Counter(0, None), clock := at)
    ensures !IsLocked(Apply(w, Reset(at)).account, at)
  {
  }

  lemma NothingCounted(times: seq<int>, from: int)
    requires |times| == 0
    ensures CountSince(times, from) == 0
  {
  }
}
