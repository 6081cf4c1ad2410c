/**
 * Walking the public directory: a reader fetches pages in (updated, id) order
 * and resumes after the last row it was given, while rows keep changing.
 */
module DirectoryWalk {
  import opened Options

  /** One version of a row: when it last changed, and which row it is. */
  datatype Key = Key(updated: int, id: int)

  predicate Before(a: Key, b: Key) {
    a.updated < b.updated || (a.updated == b.updated && a.id < b.id)
  }

  /** The listed rows, by id. */
  type Table = map<int, int>

  predicate Wanted(k: Key, since: Option<int>, cursor: Option<Key>) {
    && (since.Some? ==> k.updated >= since.value)
    && (cursor.Some? ==> Before(cursor.value, k))
  }

  function Versions(rows: Table): set<Key> {
    set id | id in rows :: Key(rows[id], id)
  }

  lemma InVersions(rows: Table, k: Key)
    ensures k in Versions(rows) <==> k.id in rows && rows[k.id] == k.updated
  {
    if k.id in rows && rows[k.id] == k.updated {
      assert k == Key(rows[k.id], k.id);
    }
  }

  function Matching(versions: set<Key>, since: Option<int>, cursor: Option<Key>): set<Key> {
    set k | k in versions && Wanted(k, since, cursor)
  }

  const DIRECTORY_DEFAULT_LIMIT: nat := 100
  const DIRECTORY_MAX_LIMIT: nat := 200

  /** The page size for a requested limit; anything unreadable is the default. */
  function ClampLimit(value: Option<real>): (limit: nat)
    ensures 1 <= limit <= 200
    ensures value.None? ==> limit == 100
    ensures value.Some? && 1.0 <= value.value < 201.0 ==> limit as real <= value.value < limit as real + 1.0
    ensures value.Some? && value.value < 1.0 ==> limit == 1
    ensures value.Some? && value.value >= 201.0 ==> limit == 200
  {
    if value.None? then DIRECTORY_DEFAULT_LIMIT
    else
      var whole := value.value.Floor;
      if whole < 1 then 1 else if whole > DIRECTORY_MAX_LIMIT then DIRECTORY_MAX_LIMIT else whole
  }

  // ------------------------------------------------------------------ in order

  ghost predicate Increasing(ks: seq<Key>) {
    forall i, j :: 0 <= i < j < |ks| ==> Before(ks[i], ks[j])
  }

  ghost predicate IsLeast(k: Key, ks: set<Key>) {
    k in ks && forall m :: m in ks ==> k == m || Before(k, m)
  }

  lemma {:induction false} HasLeast(ks: set<Key>)
    requires ks != {}
    ensures exists k :: IsLeast(k, ks)
    decreases |ks|
  {
    var k :| k in ks;
    var rest := ks - {k};
    if rest == {} {
      assert ks == {k};
      assert IsLeast(k, ks);
    } else {
      HasLeast(rest);
      var l :| IsLeast(l, rest);
      SmallerIsLeast(k, l, ks);
    }
  }

  lemma SmallerIsLeast(k: Key, l: Key, ks: set<Key>)
    requires k in ks && IsLeast(l, ks - {k})
    ensures IsLeast(if Before(k, l) then k else l, ks)
  {
    var least := if Before(k, l) then k else l;
    forall m | m in ks ensures least == m || Before(least, m) {
      if m != k {
        assert m in ks - {k};
      }
    }
  }

  ghost function Least(ks: set<Key>): (k: Key)
    requires ks != {}
    ensures IsLeast(k, ks)
  {
    HasLeast(ks);
    var k :| IsLeast(k, ks);
    k
  }

  ghost function Sorted(ks: set<Key>): (s: seq<Key>)
    ensures |s| == |ks| && (forall k :: k in s <==> k in ks)
    decreases |ks|
  {
    if ks == {} then []
    else [Least(ks)] + Sorted(ks - {Least(ks)})
  }

  lemma {:induction false} SortedIncreases(ks: set<Key>)
    ensures Increasing(Sorted(ks))
    decreases |ks|
  {
    if ks != {} {
      var k := Least(ks);
      var rest := Sorted(ks - {k});
      SortedIncreases(ks - {k});
      forall i | 0 <= i < |rest| ensures Before(k, rest[i]) {
        assert rest[i] in rest;
      }
    }
  }

  /** An increasing sequence is the sorted form of its own elements. */
  lemma {:induction false} SortedIsUnique(s: seq<Key>, ks: set<Key>)
    requires Increasing(s) && (forall k :: k in s <==> k in ks)
    ensures Sorted(ks) == s
    decreases |s|
  {
    if s == [] {
      assert ks == {};
    } else {
      assert s[0] in ks;
      var tail := s[1..];
      var l := Least(ks);
      assert l == s[0] by {
        var i :| 0 <= i < |s| && s[i] == l;
      }
      forall k ensures k in tail <==> k in ks - {l} {
        if k in ks - {l} {
          var i :| 0 <= i < |s| && s[i] == k;
          assert tail[i - 1] == k;
        }
        if k in tail {
          var i :| 0 <= i < |tail| && tail[i] == k;
          assert s[i + 1] == k && Before(s[0], s[i + 1]);
        }
      }
      SortedIsUnique(tail, ks - {l});
    }
  }

  lemma InTheRest(all: seq<Key>, n: nat, k: Key)
    requires Increasing(all) && 1 <= n <= |all|
    ensures k in all[n..] <==> k in all && Before(all[n - 1], k)
  {
    assert forall i :: 0 <= i < |all| - n ==> all[n..][i] == all[n + i];
    if k in all && Before(all[n - 1], k) {
      var i :| 0 <= i < |all| && all[i] == k;
      assert all[n..][i - n] == k;
    }
  }

  /** What sorts after the n-th key is the rest of the sorted list. */
  lemma RestIsSorted(ks: set<Key>, n: nat, left: set<Key>)
    requires 1 <= n <= |Sorted(ks)|
    requires forall k :: k in left <==> k in ks && Before(Sorted(ks)[n - 1], k)
    ensures Sorted(left) == Sorted(ks)[n..]
  {
    var all := Sorted(ks);
    SortedIncreases(ks);
    forall k ensures k in all[n..] <==> k in left {
      InTheRest(all, n, k);
    }
    SortedIsUnique(all[n..], left);
  }

  // -------------------------------------------------------------------- a page

  datatype Page = Page(items: seq<Key>, next: Option<Key>)

  /** One row more than the page is read; it is not returned, it only says there is a next page. */
  ghost function ReadPage(rows: Table, since: Option<int>, cursor: Option<Key>, limit: nat): Page
    requires limit >= 1
  {
    var all := Sorted(Matching(Versions(rows), since, cursor));
    if |all| > limit then Page(all[..limit], Some(all[limit - 1])) else Page(all, None)
  }

  /** The wanted keys the page left are those past its cursor; the keys on it are the first of the wanted ones. */
  lemma PageParts(rows: Table, since: Option<int>, cursor: Option<Key>, limit: nat)
    requires limit >= 1
    ensures var page := ReadPage(rows, since, cursor, limit);
            var wanted := Matching(Versions(rows), since, cursor);
      && Increasing(page.items)
      && (forall i :: 0 <= i < |page.items| ==> page.items[i] in wanted)
      && (forall k :: k in wanted && k !in page.items ==> page.next.Some? && Before(page.next.value, k))
      && (page.next.Some? ==> |page.items| > 0 && page.next.value == page.items[|page.items| - 1])
  {
    var wanted := Matching(Versions(rows), since, cursor);
    var all := Sorted(wanted);
    var page := ReadPage(rows, since, cursor, limit);
    SortedIncreases(wanted);
    PrefixFacts(all, wanted, page.items);
  }

  /**
   * A page holds rows as they stand, changed at or after the stamp asked for and
   * past the cursor, by stamp and then id; what it leaves of those is past its
   * last row, and it leaves some only when it is full and names a next cursor.
   */
  lemma PageFacts(rows: Table, since: Option<int>, cursor: Option<Key>, limit: nat)
    requires limit >= 1
    ensures var page := ReadPage(rows, since, cursor, limit);
      && |page.items| <= limit
      && (forall i :: 0 <= i < |page.items| ==>
            var k := page.items[i];
            && k.id in rows && rows[k.id] == k.updated
            && (since.Some? ==> k.updated >= since.value)
            && (cursor.Some? ==>
                k.updated > cursor.value.updated || (k.updated == cursor.value.updated && k.id > cursor.value.id)))
      && (forall i, j :: 0 <= i < j < |page.items| ==>
            || page.items[i].updated < page.items[j].updated
            || (page.items[i].updated == page.items[j].updated && page.items[i].id < page.items[j].id))
      && (page.next.Some? <==> |Matching(Versions(rows), since, cursor)| > limit)
      && (page.next.Some? ==> |page.items| == limit && page.next.value == page.items[limit - 1])
    ensures var page := ReadPage(rows, since, cursor, limit);
            forall id ::
              (&& id in rows && Key(rows[id], id) !in page.items
               && (since.Some? ==> rows[id] >= since.value)
               && (cursor.Some? ==>
                   rows[id] > cursor.value.updated || (rows[id] == cursor.value.updated && id > cursor.value.id))) ==>
              && page.next.Some?
              && (rows[id] > page.next.value.updated ||
                  (rows[id] == page.next.value.updated && id > page.next.value.id))
  {
    PageParts(rows, since, cursor, limit);
    var page := ReadPage(rows, since, cursor, limit);
    forall i | 0 <= i < |page.items|
        ensures page.items[i].id in rows && rows[page.items[i].id] == page.items[i].updated {
      InVersions(rows, page.items[i]);
    }
    forall id | id in rows ensures Key(rows[id], id) in Versions(rows) {
      InVersions(rows, Key(rows[id], id));
    }
  }

  lemma PrefixFacts(all: seq<Key>, wanted: set<Key>, items: seq<Key>)
    requires Increasing(all) && (forall k :: k in all <==> k in wanted) && items <= all
    ensures Increasing(items)
    ensures forall i :: 0 <= i < |items| ==> items[i] in wanted
    ensures forall k :: k in wanted && k !in items ==> |items| < |all|
    ensures forall k :: k in wanted && k !in items && items != [] ==> Before(items[|items| - 1], k)
  {
    forall i | 0 <= i < |items| ensures items[i] in wanted {
      assert items[i] == all[i] && all[i] in all;
    }
    assert forall i :: 0 <= i < |items| ==> all[i] in items;
    forall k | k in wanted && k !in items ensures |items| < |all| && (items != [] ==> Before(items[|items| - 1], k)) {
      var i :| 0 <= i < |all| && all[i] == k;
    }
  }

  // ------------------------------------------------------------------ the walk

  /**
   * Where a walk stands: the rows, the cursor held, everything delivered, and,
   * once a page came without a next cursor, the rows changed since.
   */
  datatype Walk = Walk(rows: Table, cursor: Option<Key>, delivered: seq<Key>, done: bool, changedSince: set<int>)

  /** What may happen next. Deleting a row, or delisting it, is Drop. */
  datatype Step = Fetch(limit: nat) | Write(id: int, updated: int) | Drop(id: int)

  predicate Sized(step: Step) {
    step.Fetch? ==> step.limit >= 1
  }

  ghost function Apply(w: Walk, since: Option<int>, step: Step): Walk
    requires Sized(step)
  {
    match step
    case Fetch(limit) => if w.done then w else Turned(w, ReadPage(w.rows, since, w.cursor, limit))
    case Write(id, updated) =>
      w.(rows := w.rows[id := updated], changedSince := if w.done then w.changedSince + {id} else {})
    case Drop(id) => w.(rows := w.rows - {id})
  }

  function Turned(w: Walk, page: Page): Walk {
    w.(cursor := if page.next.Some? then page.next else w.cursor,
       delivered := w.delivered + page.items,
       done := page.next.None?)
  }

  ghost function Run(w: Walk, since: Option<int>, steps: seq<Step>): Walk
    requires forall i :: 0 <= i < |steps| ==> Sized(steps[i])
    decreases |steps|
  {
    if steps == [] then w else Run(Apply(w, since, steps[0]), since, steps[1..])
  }

  function Start(rows: Table): Walk {
    Walk(rows, None, [], false, {})
  }

  // ------------------------------------------------------------ nothing twice

  /** The versions delivered strictly increase, and until the end the cursor is the last of them. */
  ghost predicate Advancing(w: Walk) {
    && Increasing(w.delivered)
    && (!w.done ==> w.cursor == (if w.delivered == [] then None else Some(w.delivered[|w.delivered| - 1])))
  }

  lemma StillIncreasing(delivered: seq<Key>, items: seq<Key>)
    requires Increasing(delivered) && Increasing(items)
    requires delivered != [] ==> forall i :: 0 <= i < |items| ==> Before(delivered[|delivered| - 1], items[i])
    ensures Increasing(delivered + items)
  {
    if delivered != [] {
      var last := delivered[|delivered| - 1];
      forall i, j | 0 <= i < |delivered| && 0 <= j < |items| ensures Before(delivered[i], items[j]) {
        assert delivered[i] == last || Before(delivered[i], last);
      }
    }
  }

  lemma TurningAdvances(w: Walk, since: Option<int>, limit: nat)
    requires Advancing(w) && limit >= 1 && !w.done
    ensures Advancing(Turned(w, ReadPage(w.rows, since, w.cursor, limit)))
  {
    PageParts(w.rows, since, w.cursor, limit);
    StillIncreasing(w.delivered, ReadPage(w.rows, since, w.cursor, limit).items);
  }

  lemma {:induction false} RunAdvances(w: Walk, since: Option<int>, steps: seq<Step>)
    requires Advancing(w) && forall i :: 0 <= i < |steps| ==> Sized(steps[i])
    ensures Advancing(Run(w, since, steps))
    decreases |steps|
  {
    if steps != [] {
      if steps[0].Fetch? && !w.done {
        TurningAdvances(w, since, steps[0].limit);
      }
      RunAdvances(Apply(w, since, steps[0]), since, steps[1..]);
    }
  }

  /**
   * However page reads, writes and removals interleave, and whatever stamps the
   * writes carry, no version of a row is delivered twice.
   */
  lemma NoVersionTwice(rows: Table, since: Option<int>, steps: seq<Step>)
    requires forall i :: 0 <= i < |steps| ==> Sized(steps[i])
    ensures var delivered := Run(Start(rows), since, steps).delivered;
            forall i, j :: 0 <= i < j < |delivered| ==> delivered[i] != delivered[j]
  {
    RunAdvances(Start(rows), since, steps);
  }

  /** What is delivered was changed at or after the stamp asked for, whenever it was. */
  ghost predicate SinceThen(w: Walk, since: Option<int>) {
    forall i :: 0 <= i < |w.delivered| ==> since.Some? ==> w.delivered[i].updated >= since.value
  }

  lemma {:induction false} RunIsSinceThen(w: Walk, since: Option<int>, steps: seq<Step>)
    requires SinceThen(w, since) && forall i :: 0 <= i < |steps| ==> Sized(steps[i])
    ensures SinceThen(Run(w, since, steps), since)
    decreases |steps|
  {
    if steps != [] {
      if steps[0].Fetch? && !w.done {
        PageFacts(w.rows, since, w.cursor, steps[0].limit);
      }
      RunIsSinceThen(Apply(w, since, steps[0]), since, steps[1..]);
    }
  }

  /** However the walk goes, nothing older than the stamp asked for is delivered. */
  lemma NothingOlderIsDelivered(rows: Table, since: int, steps: seq<Step>)
    requires forall i :: 0 <= i < |steps| ==> Sized(steps[i])
    ensures forall k :: k in Run(Start(rows), Some(since), steps).delivered ==> k.updated >= since
  {
    RunIsSinceThen(Start(rows), Some(since), steps);
  }

  // ----------------------------------------------------------- nothing skipped

  /** A row written before the last page falls past the cursor. */
  predicate InTime(w: Walk, step: Step) {
    step.Write? && !w.done && w.cursor.Some? ==> Before(w.cursor.value, Key(step.updated, step.id))
  }

  /** The one promise writers make. */
  ghost predicate Promised(w: Walk, since: Option<int>, steps: seq<Step>)
    requires forall i :: 0 <= i < |steps| ==> Sized(steps[i])
    decreases |steps|
  {
    steps == [] || (InTime(w, steps[0]) && Promised(Apply(w, since, steps[0]), since, steps[1..]))
  }

  /** A current row the reader has had, or will come to, or that changed after the last page. */
  predicate Accounted(w: Walk, k: Key) {
    || k in w.delivered
    || (if w.done then k.id in w.changedSince else w.cursor.Some? ==> Before(w.cursor.value, k))
  }

  ghost predicate Complete(w: Walk, since: Option<int>) {
    forall k :: k in Versions(w.rows) && Wanted(k, since, None) ==> Accounted(w, k)
  }

  lemma TurningIsComplete(w: Walk, since: Option<int>, limit: nat)
    requires Complete(w, since) && limit >= 1 && !w.done
    ensures Complete(Turned(w, ReadPage(w.rows, since, w.cursor, limit)), since)
  {
    var page := ReadPage(w.rows, since, w.cursor, limit);
    PageParts(w.rows, since, w.cursor, limit);
    forall k | k in Versions(w.rows) && Wanted(k, since, None) ensures Accounted(Turned(w, page), k) {
      assert Accounted(w, k);
    }
  }

  lemma WritingIsComplete(w: Walk, since: Option<int>, id: int, updated: int)
    requires Complete(w, since) && InTime(w, Write(id, updated))
    ensures Complete(Apply(w, since, Write(id, updated)), since)
  {
    var after := Apply(w, since, Write(id, updated));
    forall k | k in Versions(after.rows) && Wanted(k, since, None) ensures Accounted(after, k) {
      InVersions(after.rows, k);
      InVersions(w.rows, k);
    }
  }

  lemma DroppingIsComplete(w: Walk, since: Option<int>, id: int)
    requires Complete(w, since)
    ensures Complete(Apply(w, since, Drop(id)), since)
  {
    var after := Apply(w, since, Drop(id));
    forall k | k in Versions(after.rows) && Wanted(k, since, None) ensures Accounted(after, k) {
      InVersions(after.rows, k);
      InVersions(w.rows, k);
    }
  }

  lemma {:induction false} RunIsComplete(w: Walk, since: Option<int>, steps: seq<Step>)
    requires forall i :: 0 <= i < |steps| ==> Sized(steps[i])
    requires Complete(w, since) && Promised(w, since, steps)
    ensures Complete(Run(w, since, steps), since)
    decreases |steps|
  {
    if steps != [] {
      match steps[0] {
        case Fetch(limit) =>
          if !w.done {
            TurningIsComplete(w, since, limit);
          }
        case Write(id, updated) => WritingIsComplete(w, since, id, updated);
        case Drop(id) => DroppingIsComplete(w, since, id);
      }
      RunIsComplete(Apply(w, since, steps[0]), since, steps[1..]);
    }
  }

  /**
   * With every write falling past the cursor, a finished walk has delivered the
   * current version of every surviving row that has not changed since its final
   * page.
   */
  lemma NothingIsSkipped(rows: Table, since: Option<int>, steps: seq<Step>)
    requires forall i :: 0 <= i < |steps| ==> Sized(steps[i])
    requires Promised(Start(rows), since, steps) && Run(Start(rows), since, steps).done
    ensures var w := Run(Start(rows), since, steps);
            forall id :: id in w.rows && id !in w.changedSince && (since.Some? ==> w.rows[id] >= since.value) ==>
              Key(w.rows[id], id) in w.delivered
  {
    RunIsComplete(Start(rows), since, steps);
    var w := Run(Start(rows), since, steps);
    forall id | id in w.rows && id !in w.changedSince && (since.Some? ==> w.rows[id] >= since.value)
      ensures Key(w.rows[id], id) in w.delivered
    {
      InVersions(w.rows, Key(w.rows[id], id));
      assert Accounted(w, Key(w.rows[id], id));
    }
  }

  // ------------------------------------------------------------ with no writers

  ghost predicate OnlyFetches(steps: seq<Step>) {
    forall i :: 0 <= i < |steps| ==> steps[i].Fetch? && Sized(steps[i])
  }

  /** What is still to come from where a walk stands. */
  ghost function Ahead(w: Walk, since: Option<int>): seq<Key> {
    if w.done then [] else Sorted(Matching(Versions(w.rows), since, w.cursor))
  }

  /** Moving the cursor to the page's last key leaves the rest of the list ahead. */
  lemma LeftAhead(versions: set<Key>, since: Option<int>, cursor: Option<Key>, limit: nat)
    requires 1 <= limit < |Sorted(Matching(versions, since, cursor))|
    ensures var all := Sorted(Matching(versions, since, cursor));
            Sorted(Matching(versions, since, Some(all[limit - 1]))) == all[limit..]
  {
    var wanted := Matching(versions, since, cursor);
    var place := Sorted(wanted)[limit - 1];
    assert place in wanted;
    RestIsSorted(wanted, limit, Matching(versions, since, Some(place)));
  }

  lemma FrontAndRest(delivered: seq<Key>, all: seq<Key>, n: nat)
    requires n <= |all|
    ensures (delivered + all[..n]) + all[n..] == delivered + all
  {
  }

  lemma TurningTakesFromTheFront(w: Walk, since: Option<int>, limit: nat)
    requires limit >= 1 && !w.done
    ensures var after := Turned(w, ReadPage(w.rows, since, w.cursor, limit));
            after.delivered + Ahead(after, since) == w.delivered + Ahead(w, since)
  {
    var all := Sorted(Matching(Versions(w.rows), since, w.cursor));
    if |all| > limit {
      LeftAhead(Versions(w.rows), since, w.cursor, limit);
      FrontAndRest(w.delivered, all, limit);
    } else {
      FrontAndRest(w.delivered, all, |all|);
      assert all[..|all|] == all && all[|all|..] == [];
    }
  }

  /** With no writers, what was delivered and what is ahead always put together the same list. */
  lemma {:induction false} PagesAreTheSortedList(w: Walk, since: Option<int>, steps: seq<Step>)
    requires OnlyFetches(steps)
    ensures var after := Run(w, since, steps);
            after.rows == w.rows && after.delivered + Ahead(after, since) == w.delivered + Ahead(w, since)
    decreases |steps|
  {
    if steps != [] {
      if !w.done {
        TurningTakesFromTheFront(w, since, steps[0].limit);
      }
      PagesAreTheSortedList(Apply(w, since, steps[0]), since, steps[1..]);
    }
  }

  /** Read to the end with no writers, the pages concatenate to exactly the filtered table in key order. */
  lemma QuietWalkIsTheTable(rows: Table, since: Option<int>, steps: seq<Step>)
    requires OnlyFetches(steps) && Run(Start(rows), since, steps).done
    ensures Run(Start(rows), since, steps).delivered == Sorted(Matching(Versions(rows), since, None))
  {
    var end := Run(Start(rows), since, steps);
    PagesAreTheSortedList(Start(rows), since, steps);
    assert end.delivered == end.delivered + Ahead(end, since);
    assert Ahead(Start(rows), since) == Start(rows).delivered + Ahead(Start(rows), since);
  }

  /** So it delivers exactly the rows changed at or after the stamp asked for, each once, by stamp and then id. */
  lemma QuietWalkIsExact(rows: Table, since: Option<int>, steps: seq<Step>)
    requires OnlyFetches(steps) && Run(Start(rows), since, steps).done
    ensures var delivered := Run(Start(rows), since, steps).delivered;
      && (forall id, u :: Key(u, id) in delivered <==>
            id in rows && rows[id] == u && (since.Some? ==> u >= since.value))
      && (forall i, j :: 0 <= i < j < |delivered| ==>
            || delivered[i].updated < delivered[j].updated
            || (delivered[i].updated == delivered[j].updated && delivered[i].id < delivered[j].id))
  {
    QuietWalkIsTheTable(rows, since, steps);
    var wanted := Matching(Versions(rows), since, None);
    SortedIncreases(wanted);
    forall id, u ensures Key(u, id) in wanted <==> id in rows && rows[id] == u && (since.Some? ==> u >= since.value) {
      InVersions(rows, Key(u, id));
    }
  }

  // ------------------------------------------------- the limit of the promise

  /**
   * A row written in mid-walk, whatever its stamp, is delivered by reading on
   * to the end exactly when its key falls past the reader's cursor.
   */
  lemma WrittenRowIsSeenIff(w: Walk, since: Option<int>, id: int, updated: int, steps: seq<Step>)
    requires !w.done && Key(updated, id) !in w.delivered && (since.Some? ==> updated >= since.value)
    requires OnlyFetches(steps)
    requires Run(Apply(w, since, Write(id, updated)), since, steps).done
    ensures Key(updated, id) in Run(Apply(w, since, Write(id, updated)), since, steps).delivered
       <==> (w.cursor.Some? ==> Before(w.cursor.value, Key(updated, id)))
  {
    var after := Apply(w, since, Write(id, updated));
    var end := Run(after, since, steps);
    PagesAreTheSortedList(after, since, steps);
    assert end.delivered == end.delivered + Ahead(end, since);
    InVersions(after.rows, Key(updated, id));
    assert Key(updated, id) in Ahead(after, since) <==> Wanted(Key(updated, id), since, w.cursor);
  }

  /** So a row given the stamp the reader stopped at, and a smaller id, is never seen. */
  lemma SameStampSmallerIdIsSkipped(w: Walk, since: Option<int>, id: int, steps: seq<Step>)
    requires Advancing(w) && !w.done && w.cursor.Some? && id < w.cursor.value.id
    requires Key(w.cursor.value.updated, id) !in w.delivered && (since.Some? ==> w.cursor.value.updated >= since.value)
    requires OnlyFetches(steps)
    requires Run(Apply(w, since, Write(id, w.cursor.value.updated)), since, steps).done
    ensures var k := Key(w.cursor.value.updated, id);
            k !in Run(Apply(w, since, Write(id, k.updated)), since, steps).delivered
  {
    WrittenRowIsSeenIff(w, since, id, w.cursor.value.updated, steps);
  }
}
