/**
 * The server's half of an authorize request: stored for ten minutes, deleted
 * as the callback reads it. The log is what the table must remember.
 */
module PendingSignIn {
  import opened Options

  const PENDING_TTL: int := 600_000

  datatype Entry = Begun(id: string, at: int) | Taken(id: string, at: int)

  /** Rows by id, with when they run out. */
  datatype Pending = Pending(rows: map<string, int>, log: seq<Entry>)

  datatype Step = Begin(id: string) | Take(id: string)

  predicate CanTake(p: Pending, id: string, at: int) {
    id != "" && id in p.rows && p.rows[id] > at
  }

  /** Beginning clears what has run out; taking deletes the row whether or not it is still good. */
  function Apply(p: Pending, step: Step, at: int): Pending {
    match step
    case Begin(id) =>
      Pending((map x | x in p.rows && p.rows[x] >= at :: p.rows[x])[id := at + PENDING_TTL], p.log + [Begun(id, at)])
    case Take(id) =>
      if id == "" then p
      else Pending(p.rows - {id}, if CanTake(p, id, at) then p.log + [Taken(id, at)] else p.log)
  }

  /** Ids are random enough never to come up twice. */
  predicate Enabled(p: Pending, step: Step) {
    step.Begin? ==> step.id != "" && forall i :: 0 <= i < |p.log| ==> p.log[i].id != step.id
  }

  /** When a sign-in began, from the log. */
  function BegunAt(log: seq<Entry>, id: string): Option<int> {
    if log == [] then None
    else if log[|log| - 1].Begun? && log[|log| - 1].id == id then Some(log[|log| - 1].at)
    else BegunAt(log[..|log| - 1], id)
  }

  predicate WasTaken(log: seq<Entry>, id: string) {
    log != [] && ((log[|log| - 1].Taken? && log[|log| - 1].id == id) || WasTaken(log[..|log| - 1], id))
  }

  /** Every sign-in taken had begun less than ten minutes before, and had not been taken already. */
  predicate TakenOnceInTime(log: seq<Entry>) {
    log == [] ||
      var before := log[..|log| - 1];
      var last := log[|log| - 1];
      && TakenOnceInTime(before)
      && (last.Taken? ==>
          && BegunAt(before, last.id).Some? && last.at < BegunAt(before, last.id).value + PENDING_TTL
          && !WasTaken(before, last.id))
  }

  predicate RowsAreOpen(p: Pending) {
    forall id :: id in p.rows ==> BegunAt(p.log, id) == Some(p.rows[id] - PENDING_TTL) && !WasTaken(p.log, id)
  }

  lemma LogSnoc(log: seq<Entry>, e: Entry, id: string)
    ensures BegunAt(log + [e], id) == if e.Begun? && e.id == id then Some(e.at) else BegunAt(log, id)
    ensures WasTaken(log + [e], id) <==> (e.Taken? && e.id == id) || WasTaken(log, id)
    ensures TakenOnceInTime(log + [e]) <==>
            && TakenOnceInTime(log)
            && (e.Taken? ==>
                && BegunAt(log, e.id).Some? && e.at < BegunAt(log, e.id).value + PENDING_TTL
                && !WasTaken(log, e.id))
  {
    assert (log + [e])[..|log|] == log;
  }

  lemma {:induction false} NeverSeenNeverTaken(log: seq<Entry>, id: string)
    requires forall i :: 0 <= i < |log| ==> log[i].id != id
    ensures !WasTaken(log, id)
  {
    if log != [] {
      NeverSeenNeverTaken(log[..|log| - 1], id);
    }
  }

  lemma BeginKeeps(p: Pending, id: string, at: int)
    requires TakenOnceInTime(p.log) && RowsAreOpen(p) && Enabled(p, Begin(id))
    ensures TakenOnceInTime(Apply(p, Begin(id), at).log) && RowsAreOpen(Apply(p, Begin(id), at))
  {
    NeverSeenNeverTaken(p.log, id);
    LogSnoc(p.log, Begun(id, at), id);
    forall x | x in p.rows && x != id
      ensures BegunAt(p.log + [Begun(id, at)], x) == BegunAt(p.log, x)
      ensures WasTaken(p.log + [Begun(id, at)], x) == WasTaken(p.log, x)
    {
      LogSnoc(p.log, Begun(id, at), x);
    }
  }

  lemma TakeKeeps(p: Pending, id: string, at: int)
    requires TakenOnceInTime(p.log) && RowsAreOpen(p)
    ensures TakenOnceInTime(Apply(p, Take(id), at).log) && RowsAreOpen(Apply(p, Take(id), at))
  {
    LogSnoc(p.log, Taken(id, at), id);
    forall x | x in p.rows && x != id
      ensures BegunAt(p.log + [Taken(id, at)], x) == BegunAt(p.log, x)
      ensures WasTaken(p.log + [Taken(id, at)], x) == WasTaken(p.log, x)
    {
      LogSnoc(p.log, Taken(id, at), x);
    }
  }

  lemma StepKeeps(p: Pending, step: Step, at: int)
    requires TakenOnceInTime(p.log) && RowsAreOpen(p) && Enabled(p, step)
    ensures TakenOnceInTime(Apply(p, step, at).log) && RowsAreOpen(Apply(p, step, at))
  {
    match step
    case Begin(id) => BeginKeeps(p, id, at);
    case Take(id) => TakeKeeps(p, id, at);
  }

  datatype Timed = Timed(step: Step, at: int)

  predicate CanRun(p: Pending, steps: seq<Timed>)
    decreases |steps|
  {
    steps == [] || (Enabled(p, steps[0].step) && CanRun(Apply(p, steps[0].step, steps[0].at), steps[1..]))
  }

  function Run(p: Pending, steps: seq<Timed>): Pending
    requires CanRun(p, steps)
    decreases |steps|
  {
    if steps == [] then p else Run(Apply(p, steps[0].step, steps[0].at), steps[1..])
  }

  lemma {:induction false} RunKeeps(p: Pending, steps: seq<Timed>)
    requires TakenOnceInTime(p.log) && RowsAreOpen(p) && CanRun(p, steps)
    ensures TakenOnceInTime(Run(p, steps).log)
    decreases |steps|
  {
    if steps != [] {
      StepKeeps(p, steps[0].step, steps[0].at);
      RunKeeps(Apply(p, steps[0].step, steps[0].at), steps[1..]);
    }
  }

  lemma {:induction false} BegunIsLogged(log: seq<Entry>, id: string)
    ensures BegunAt(log, id).Some? ==> exists j :: 0 <= j < |log| && log[j] == Begun(id, BegunAt(log, id).value)
  {
    if |log| > 0 {
      BegunIsLogged(log[..|log| - 1], id);
      if BegunAt(log, id).Some? && log[|log| - 1] != Begun(id, BegunAt(log, id).value) {
        var before := log[..|log| - 1];
        var j :| 0 <= j < |before| && before[j] == Begun(id, BegunAt(before, id).value);
        assert log[j] == before[j];
      }
    }
  }

  lemma {:induction false} TakenIsLogged(log: seq<Entry>, i: nat)
    requires i < |log| && log[i].Taken?
    ensures WasTaken(log, log[i].id)
  {
    if i < |log| - 1 {
      TakenIsLogged(log[..|log| - 1], i);
    }
  }

  /** A log that is right from its end is right at each of its entries. */
  lemma {:induction false} RightAtEach(log: seq<Entry>, k: nat)
    requires TakenOnceInTime(log) && k < |log| && log[k].Taken?
    ensures exists j :: 0 <= j < k && log[j].Begun? && log[j].id == log[k].id && log[k].at < log[j].at + 600_000
    ensures forall i :: 0 <= i < k && log[i].Taken? ==> log[i].id != log[k].id
  {
    var before := log[..|log| - 1];
    if k < |log| - 1 {
      RightAtEach(before, k);
      var j :| 0 <= j < k && before[j].Begun? && before[j].id == before[k].id && before[k].at < before[j].at + 600_000;
      assert log[j] == before[j];
    } else {
      BegunIsLogged(before, log[k].id);
      var j :| 0 <= j < |before| && before[j] == Begun(log[k].id, BegunAt(before, log[k].id).value);
      assert log[j] == before[j];
      forall i | 0 <= i < k && log[i].Taken? ensures log[i].id != log[k].id {
        TakenIsLogged(before, i);
      }
    }
  }

  /** A pending sign-in is taken at most once, only after it began, and never ten minutes later. */
  lemma SingleUse(steps: seq<Timed>, k: nat)
    requires CanRun(Pending(map[], []), steps)
    requires k < |Run(Pending(map[], []), steps).log| && Run(Pending(map[], []), steps).log[k].Taken?
    ensures var log := Run(Pending(map[], []), steps).log;
      && (exists j :: 0 <= j < k && log[j].Begun? && log[j].id == log[k].id && log[k].at < log[j].at + 600_000)
      && (forall i :: 0 <= i < |log| && i != k && log[i].Taken? ==> log[i].id != log[k].id)
  {
    RunKeeps(Pending(map[], []), steps);
    var log := Run(Pending(map[], []), steps).log;
    RightAtEach(log, k);
    forall i | k < i < |log| && log[i].Taken? ensures log[i].id != log[k].id {
      RightAtEach(log, i);
    }
  }

  /** Begun at `at` and not taken up to `now`: the row is there, or was cleared once ten minutes were over. */
  predicate StillOpen(p: Pending, id: string, at: int, now: int) {
    && (exists i :: 0 <= i < |p.log| && p.log[i].id == id)
    && if id in p.rows then p.rows[id] == at + 600_000 else at + 600_000 < now
  }

  lemma StepStaysOpen(p: Pending, id: string, at: int, step: Step, t: int, now: int)
    requires StillOpen(p, id, at, now) && Enabled(p, step) && step != Take(id) && t <= now
    ensures StillOpen(Apply(p, step, t), id, at, now)
  {
    var i :| 0 <= i < |p.log| && p.log[i].id == id;
    assert Apply(p, step, t).log[i].id == id;
  }

  lemma {:induction false} StaysOpen(p: Pending, id: string, at: int, steps: seq<Timed>, now: int)
    requires StillOpen(p, id, at, now) && CanRun(p, steps)
    requires forall i :: 0 <= i < |steps| ==> steps[i].step != Take(id) && steps[i].at <= now
    ensures StillOpen(Run(p, steps), id, at, now)
    decreases |steps|
  {
    if |steps| > 0 {
      StepStaysOpen(p, id, at, steps[0].step, steps[0].at, now);
      StaysOpen(Apply(p, steps[0].step, steps[0].at), id, at, steps[1..], now);
    }
  }

  lemma {:induction false} RunsOn(p: Pending, steps: seq<Timed>, next: Timed)
    requires CanRun(p, steps + [next])
    ensures CanRun(p, steps) && Run(p, steps + [next]) == Apply(Run(p, steps), next.step, next.at)
    decreases |steps|
  {
    var all := steps + [next];
    if |steps| == 0 {
      assert all[1..] == [];
    } else {
      assert all[1..] == steps[1..] + [next];
      RunsOn(Apply(p, steps[0].step, steps[0].at), steps[1..], next);
    }
  }

  /** Whatever else begins or is taken in the meantime, a sign-in is there to be taken for exactly ten minutes. */
  lemma {:induction false} OpenForTenMinutes(p: Pending, id: string, at: int, others: seq<Timed>, now: int)
    requires CanRun(p, [Timed(Begin(id), at)] + others + [Timed(Take(id), now)]) && at <= now
    requires forall i :: 0 <= i < |others| ==> others[i].step != Take(id) && others[i].at <= now
    ensures CanRun(p, [Timed(Begin(id), at)] + others)
    ensures Run(p, [Timed(Begin(id), at)] + others + [Timed(Take(id), now)]).log
         == Run(p, [Timed(Begin(id), at)] + others).log + (if now < at + 600_000 then [Taken(id, now)] else [])
  {
    var begun := Apply(p, Begin(id), at);
    RunsOn(p, [Timed(Begin(id), at)] + others, Timed(Take(id), now));
    assert ([Timed(Begin(id), at)] + others)[1..] == others;
    assert begun.log[|p.log|].id == id;
    StaysOpen(begun, id, at, others, now);
  }

  class PendingTable {
    var rows: map<string, int>
    ghost var log: seq<Entry>

    ghost function State(): Pending
      reads this
    {
      Pending(rows, log)
    }

    method BeginCoinpaySignIn(id: string, at: int)
      modifies this
      ensures State() == Apply(old(State()), Begin(id), at)
      ensures id in rows && rows[id] == at + 10 * 60 * 1000
      ensures forall x :: x != id ==> (x in rows <==> x in old(rows) && old(rows)[x] >= at)
      ensures forall x :: x != id && x in rows ==> rows[x] == old(rows)[x]
    {
      rows := map x | x in rows && rows[x] >= at :: rows[x];
      rows := rows[id := at + PENDING_TTL];
      log := log + [Begun(id, at)];
    }

    /** True when the sign-in may go on. */
    method TakePendingSignIn(id: string, at: int) returns (taken: bool)
      modifies this
      ensures State() == Apply(old(State()), Take(id), at)
      ensures taken <==> id != "" && id in old(rows) && at < old(rows)[id]
      ensures rows == if id == "" then old(rows) else old(rows) - {id}
    {
      if id == "" {
        return false;
      }
      if id !in rows {
        assert rows - {id} == rows;
        return false;
      }
      taken := rows[id] > at;
      rows := rows - {id};
      log := if taken then log + [Taken(id, at)] else log;
    }
  }
}
