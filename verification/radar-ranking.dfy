/**
 * Which reference a product drafts from: how far each post beat its peers, and
 * the order the candidates are taken in.
 */
module RadarRanking {

  datatype Group = Group(source: string, origin: string)

  datatype Reference = Reference(id: string, group: Group, engagement: nat, saved: bool, followed: bool, judged: bool)

  /** Lift is kept to two decimals; here in hundredths. */
  datatype Lifted = Lifted(row: Reference, lift: int)

  // -------------------------------------------------------------------- lift

  function Engagements(rows: seq<Reference>, group: Group): seq<nat> {
    if rows == [] then []
    else
      var last := rows[|rows| - 1];
      Engagements(rows[..|rows| - 1], group) + (if last.group == group then [last.engagement] else [])
  }

  function Inserted(sorted: seq<nat>, x: nat): seq<nat> {
    if sorted == [] || x <= sorted[0] then [x] + sorted else [sorted[0]] + Inserted(sorted[1..], x)
  }

  function Ascending(values: seq<nat>): (s: seq<nat>)
    ensures |s| == |values|
  {
    if values == [] then [] else
      var rest := Ascending(values[1..]);
      InsertedLength(rest, values[0]);
      Inserted(rest, values[0])
  }

  lemma {:induction false} InsertedLength(sorted: seq<nat>, x: nat)
    ensures |Inserted(sorted, x)| == |sorted| + 1
  {
    if sorted != [] && x > sorted[0] {
      InsertedLength(sorted[1..], x);
    }
  }

  /** The upper median; a group with nobody in it has none and counts as 0. */
  function Median(values: seq<nat>): nat {
    if values == [] then 0 else Ascending(values)[|values| / 2]
  }

  /** Hundredths, halves rounded up. */
  function LiftOver(engagement: nat, median: nat): int {
    var m := if median >= 1 then median else 1;
    (200 * engagement + m) / (2 * m)
  }

  function LiftOf(rows: seq<Reference>, row: Reference): int {
    LiftOver(row.engagement, Median(Engagements(rows, row.group)))
  }

  lemma EngagementsSnoc(rows: seq<Reference>, row: Reference, group: Group)
    ensures Engagements(rows + [row], group) ==
        Engagements(rows, group) + (if row.group == group then [row.engagement] else [])
  {
    assert (rows + [row])[..|rows|] == rows;
  }

  type Groups = map<Group, seq<nat>>

  /** The map holds the engagements of every group these rows have, and nothing else. */
  ghost predicate Grouped(groups: Groups, rows: seq<Reference>) {
    forall g :: if g in groups then groups[g] == Engagements(rows, g) else Engagements(rows, g) == []
  }

  lemma GroupedSnoc(groups: Groups, rows: seq<Reference>, row: Reference, values: seq<nat>)
    requires Grouped(groups, rows)
    requires values == if row.group in groups then groups[row.group] else []
    ensures Grouped(groups[row.group := values + [row.engagement]], rows + [row])
  {
    var after := groups[row.group := values + [row.engagement]];
    forall g
      ensures if g in after then after[g] == Engagements(rows + [row], g) else Engagements(rows + [row], g) == []
    {
      EngagementsSnoc(rows, row, g);
    }
  }

  lemma {:induction false} HasEngagements(rows: seq<Reference>, i: nat)
    requires i < |rows|
    ensures Engagements(rows, rows[i].group) != []
    decreases |rows|
  {
    if i < |rows| - 1 {
      HasEngagements(rows[..|rows| - 1], i);
    }
  }

  method GroupEngagements(rows: seq<Reference>) returns (groups: Groups)
    ensures Grouped(groups, rows)
  {
    groups := map[];
    var i := 0;
    while i < |rows|
      invariant 0 <= i <= |rows|
      invariant Grouped(groups, rows[..i])
    {
      var row := rows[i];
      var values := if row.group in groups then groups[row.group] else [];
      GroupedSnoc(groups, rows[..i], row, values);
      assert rows[..i + 1] == rows[..i] + [row];
      groups := groups[row.group := values + [row.engagement]];
      i := i + 1;
    }
    assert rows[..i] == rows;
  }

  /** Groups, then medians, then each row's lift over its own group's. */
  method WithLift(rows: seq<Reference>) returns (lifted: seq<Lifted>)
    ensures |lifted| == |rows|
    ensures forall i :: 0 <= i < |rows| ==> lifted[i] == Lifted(rows[i], LiftOf(rows, rows[i]))
  {
    var groups := GroupEngagements(rows);
    var medians := map g | g in groups :: Median(groups[g]);
    forall i | 0 <= i < |rows|
        ensures rows[i].group in medians && medians[rows[i].group] == Median(Engagements(rows, rows[i].group)) {
      HasEngagements(rows, i);
    }
    lifted := seq(|rows|, i requires 0 <= i < |rows| =>
        Lifted(rows[i], LiftOver(rows[i].engagement, medians[rows[i].group])));
  }

  function CountUpTo(values: seq<nat>, m: nat): nat {
    if values == [] then 0 else (if values[0] <= m then 1 else 0) + CountUpTo(values[1..], m)
  }

  predicate IsAscending(values: seq<nat>) {
    forall i, j :: 0 <= i < j < |values| ==> values[i] <= values[j]
  }

  lemma {:induction false} InsertedFacts(sorted: seq<nat>, x: nat, m: nat)
    requires IsAscending(sorted)
    ensures IsAscending(Inserted(sorted, x))
    ensures CountUpTo(Inserted(sorted, x), m) == (if x <= m then 1 else 0) + CountUpTo(sorted, m)
    ensures forall v :: v in Inserted(sorted, x) ==> v == x || v in sorted
  {
    if sorted != [] && x > sorted[0] {
      InsertedFacts(sorted[1..], x, m);
      var rest := Inserted(sorted[1..], x);
      assert sorted == [sorted[0]] + sorted[1..];
      forall k | 0 <= k < |rest| ensures sorted[0] <= rest[k] {
        assert rest[k] in rest;
      }
    }
  }

  lemma {:induction false} AscendingFacts(values: seq<nat>, m: nat)
    ensures IsAscending(Ascending(values)) && CountUpTo(Ascending(values), m) == CountUpTo(values, m)
  {
    if values != [] {
      AscendingFacts(values[1..], m);
      InsertedFacts(Ascending(values[1..]), values[0], m);
    }
  }

  lemma {:induction false} PrefixCounts(sorted: seq<nat>, k: nat)
    requires IsAscending(sorted) && k < |sorted|
    ensures CountUpTo(sorted, sorted[k]) >= k + 1
    decreases k
  {
    if k > 0 {
      PrefixCounts(sorted[1..], k - 1);
    }
  }

  lemma MedianCoversHalf(values: seq<nat>)
    requires values != []
    ensures CountUpTo(values, Median(values)) >= |values| / 2 + 1
  {
    AscendingFacts(values, Median(values));
    PrefixCounts(Ascending(values), |values| / 2);
  }

  /** A group's posts, by their places. */
  ghost function Posts(rows: seq<Reference>, group: Group): set<nat> {
    set i | 0 <= i < |rows| && rows[i].group == group
  }

  /** Those with lift above one, and those with lift below it, medians being those of all the rows. */
  ghost function Above(rows: seq<Reference>, all: seq<Reference>, group: Group): set<nat> {
    set i | 0 <= i < |rows| && rows[i].group == group && LiftOf(all, rows[i]) > 100
  }

  ghost function Below(rows: seq<Reference>, all: seq<Reference>, group: Group): set<nat> {
    set i | 0 <= i < |rows| && rows[i].group == group && LiftOf(all, rows[i]) < 100
  }

  lemma PostsSnoc(rows: seq<Reference>, row: Reference, all: seq<Reference>, group: Group)
    ensures Posts(rows + [row], group) == Posts(rows, group) + (if row.group == group then {|rows|} else {})
    ensures Above(rows + [row], all, group) == Above(rows, all, group) +
            (if row.group == group && LiftOf(all, row) > 100 then {|rows|} else {})
    ensures Below(rows + [row], all, group) == Below(rows, all, group) +
            (if row.group == group && LiftOf(all, row) < 100 then {|rows|} else {})
  {
    assert forall i :: 0 <= i < |rows| ==> (rows + [row])[i] == rows[i];
  }

  lemma OneMorePost(rows: seq<Reference>, row: Reference, all: seq<Reference>, group: Group)
    ensures |Posts(rows + [row], group)| == |Posts(rows, group)| + (if row.group == group then 1 else 0)
    ensures |Above(rows + [row], all, group)| == |Above(rows, all, group)| +
            (if row.group == group && LiftOf(all, row) > 100 then 1 else 0)
    ensures |Below(rows + [row], all, group)| == |Below(rows, all, group)| +
            (if row.group == group && LiftOf(all, row) < 100 then 1 else 0)
  {
    PostsSnoc(rows, row, all, group);
    assert |rows| !in Posts(rows, group) && |rows| !in Above(rows, all, group) && |rows| !in Below(rows, all, group);
  }

  lemma OneMoreEngagement(rows: seq<Reference>, row: Reference, group: Group, m: nat)
    ensures |Engagements(rows + [row], group)| == |Engagements(rows, group)| + (if row.group == group then 1 else 0)
    ensures CountUpTo(Engagements(rows + [row], group), m) == CountUpTo(Engagements(rows, group), m) +
            (if row.group == group && row.engagement <= m then 1 else 0)
  {
    EngagementsSnoc(rows, row, group);
    CountUpToSnoc(Engagements(rows, group), row.engagement, m);
    assert Engagements(rows, group) + [] == Engagements(rows, group);
  }

  lemma LiftAtMostOne(engagement: nat, median: nat)
    requires engagement <= median
    ensures LiftOver(engagement, median) <= 100
  {
    var m := if median >= 1 then median else 1;
    assert 200 * engagement + m < 101 * (2 * m);
    QuotientBelow(200 * engagement + m, 101, 2 * m);
  }

  lemma QuotientBelow(a: nat, q: int, d: nat)
    requires d > 0 && a < q * d
    ensures a / d < q
  {
    if a / d >= q {
      AtLeastQuotient(a, q, d);
    }
  }

  lemma AtLeastQuotient(a: nat, q: int, d: nat)
    requires d > 0 && a / d >= q
    ensures a >= q * d
  {
    assert a == d * (a / d) + a % d;
    ProductGrows(q, a / d, d);
  }

  lemma ProductGrows(a: int, b: int, d: nat)
    requires a <= b
    ensures a * d <= b * d && d * a <= d * b
  {
  }

  lemma {:induction false} CountUpToSnoc(values: seq<nat>, x: nat, m: nat)
    ensures CountUpTo(values + [x], m) == CountUpTo(values, m) + (if x <= m then 1 else 0)
  {
    if values != [] {
      assert (values + [x])[1..] == values[1..] + [x];
      CountUpToSnoc(values[1..], x, m);
    }
  }

  /** Nobody at the median or below it is above one. */
  ghost predicate NotAbove(rows: seq<Reference>, all: seq<Reference>, group: Group) {
    && |Posts(rows, group)| == |Engagements(rows, group)|
    && |Above(rows, all, group)| + CountUpTo(Engagements(rows, group), Median(Engagements(all, group)))
       <= |Posts(rows, group)|
  }

  lemma OneMoreIsNotAbove(rows: seq<Reference>, row: Reference, all: seq<Reference>, group: Group)
    requires NotAbove(rows, all, group)
    ensures NotAbove(rows + [row], all, group)
  {
    var m := Median(Engagements(all, group));
    OneMorePost(rows, row, all, group);
    OneMoreEngagement(rows, row, group, m);
    if row.group == group && row.engagement <= m {
      LiftAtMostOne(row.engagement, m);
    }
  }

  lemma {:induction false} AtMedianIsNotAbove(rows: seq<Reference>, all: seq<Reference>, group: Group)
    ensures NotAbove(rows, all, group)
    decreases |rows|
  {
    if |rows| == 0 {
      assert Posts(rows, group) == {} && Above(rows, all, group) == {};
    } else {
      AtMedianIsNotAbove(rows[..|rows| - 1], all, group);
      OneMoreIsNotAbove(rows[..|rows| - 1], rows[|rows| - 1], all, group);
      assert rows == rows[..|rows| - 1] + [rows[|rows| - 1]];
    }
  }

  /** In every group that has anybody, fewer than half of the posts have lift above one. */
  lemma MostPostsAreUnremarkable(rows: seq<Reference>, group: Group)
    requires Posts(rows, group) != {}
    ensures 2 * |Above(rows, rows, group)| < |Posts(rows, group)|
  {
    AtMedianIsNotAbove(rows, rows, group);
    MedianCoversHalf(Engagements(rows, group));
  }

  lemma {:induction false} FewBelow(sorted: seq<nat>, k: nat, m: nat)
    requires IsAscending(sorted) && k < |sorted| && m < sorted[k]
    ensures CountUpTo(sorted, m) <= k
    decreases |sorted|
  {
    if k > 0 {
      FewBelow(sorted[1..], k - 1, m);
    } else {
      NoneBelow(sorted, m);
    }
  }

  lemma {:induction false} NoneBelow(values: seq<nat>, m: nat)
    requires forall i :: 0 <= i < |values| ==> values[i] > m
    ensures CountUpTo(values, m) == 0
    decreases |values|
  {
    if values != [] {
      NoneBelow(values[1..], m);
    }
  }

  /** The median is one of the values, no more than half of which are below it. */
  lemma MedianIsTheMiddle(values: seq<nat>, m: nat)
    requires values != [] && m < Median(values)
    ensures Median(values) in Ascending(values)
    ensures CountUpTo(values, m) <= |values| / 2
  {
    AscendingFacts(values, m);
    FewBelow(Ascending(values), |values| / 2, m);
  }

  lemma LiftAtLeastOne(engagement: nat, median: nat)
    requires engagement >= median >= 1
    ensures LiftOver(engagement, median) >= 100
  {
    var a := 200 * engagement + median;
    if a / (2 * median) < 100 {
      assert a == 2 * median * (a / (2 * median)) + a % (2 * median);
      ProductGrows(a / (2 * median), 99, 2 * median);
    }
  }

  /** Everybody below one is below the median. */
  ghost predicate BelowIsBelow(rows: seq<Reference>, all: seq<Reference>, group: Group) {
    Median(Engagements(all, group)) >= 1 &&
    |Below(rows, all, group)| <= CountUpTo(Engagements(rows, group), Median(Engagements(all, group)) - 1)
  }

  lemma OneMoreIsBelow(rows: seq<Reference>, row: Reference, all: seq<Reference>, group: Group)
    requires BelowIsBelow(rows, all, group)
    ensures BelowIsBelow(rows + [row], all, group)
  {
    var m := Median(Engagements(all, group));
    OneMorePost(rows, row, all, group);
    OneMoreEngagement(rows, row, group, m - 1);
    if row.group == group && row.engagement >= m {
      LiftAtLeastOne(row.engagement, m);
    }
  }

  lemma {:induction false} BelowMedianAtMost(rows: seq<Reference>, all: seq<Reference>, group: Group)
    requires Median(Engagements(all, group)) >= 1
    ensures BelowIsBelow(rows, all, group)
    decreases |rows|
  {
    if |rows| == 0 {
      assert Below(rows, all, group) == {};
    } else {
      BelowMedianAtMost(rows[..|rows| - 1], all, group);
      OneMoreIsBelow(rows[..|rows| - 1], rows[|rows| - 1], all, group);
      assert rows == rows[..|rows| - 1] + [rows[|rows| - 1]];
    }
  }

  /** In every group with a median to speak of, at most half of the posts have lift below one. */
  lemma AtMostHalfAreBelowPar(rows: seq<Reference>, group: Group)
    requires Median(Engagements(rows, group)) >= 1
    ensures 2 * |Below(rows, rows, group)| <= |Posts(rows, group)|
  {
    AtMedianIsNotAbove(rows, rows, group);
    MedianIsTheMiddle(Engagements(rows, group), Median(Engagements(rows, group)) - 1);
    BelowMedianAtMost(rows, rows, group);
  }

  /** Lift is the engagement over the median, or over one, to the nearest hundredth. */
  lemma LiftIsTheRatio(engagement: nat, median: nat)
    ensures var m := if median == 0 then 1 else median;
            var lift := LiftOver(engagement, median);
            2 * m * lift <= 200 * engagement + m < 2 * m * (lift + 1)
  {
    var m := if median >= 1 then median else 1;
    var a := 200 * engagement + m;
    assert a == 2 * m * (a / (2 * m)) + a % (2 * m);
  }

  lemma QuotientGrows(a: nat, b: nat, d: nat)
    requires a <= b && d > 0
    ensures a / d <= b / d
  {
    QuotientBelow(a, b / d + 1, d) by {
      assert b == d * (b / d) + b % d;
    }
  }

  /** Within a group, more engagement is never less lift. */
  lemma LiftIsMonotone(rows: seq<Reference>, a: Reference, b: Reference)
    requires a.group == b.group && a.engagement <= b.engagement
    ensures LiftOf(rows, a) <= LiftOf(rows, b)
  {
    var median := Median(Engagements(rows, a.group));
    var m := if median >= 1 then median else 1;
    QuotientGrows(200 * a.engagement + m, 200 * b.engagement + m, 2 * m);
  }

  // ------------------------------------------------------------------- order

  function Rank(row: Reference): int {
    (if row.saved then 0 else 4) + (if row.followed then 2 else 0) + (if row.judged then 0 else 1)
  }

  /** Negative when `a` goes first, as a sort comparator's answer. */
  function PickOrder(a: Lifted, b: Lifted): int {
    var byRank := Rank(a.row) - Rank(b.row);
    if byRank != 0 then byRank
    else if b.lift != a.lift then b.lift - a.lift
    else b.row.engagement - a.row.engagement
  }

  /** A save before anything, then found over followed, judged over guessed, more lift, more engagement. */
  predicate GoesFirst(a: Lifted, b: Lifted) {
    if a.row.saved != b.row.saved then a.row.saved
    else if a.row.followed != b.row.followed then b.row.followed
    else if a.row.judged != b.row.judged then a.row.judged
    else if a.lift != b.lift then a.lift > b.lift
    else a.row.engagement > b.row.engagement
  }

  /** The comparator's sign is the lexicographic order, so it is a total preorder. */
  lemma OrderIsLexicographic(a: Lifted, b: Lifted)
    ensures PickOrder(a, b) < 0 <==> GoesFirst(a, b)
    ensures PickOrder(a, b) > 0 <==> GoesFirst(b, a)
  {
  }

  lemma OrderIsTransitive(a: Lifted, b: Lifted, c: Lifted)
    requires PickOrder(a, b) <= 0 && PickOrder(b, c) <= 0
    ensures PickOrder(a, c) <= 0
    ensures PickOrder(a, b) < 0 || PickOrder(b, c) < 0 ==> PickOrder(a, c) < 0
  {
    OrderIsLexicographic(a, b);
    OrderIsLexicographic(b, c);
    OrderIsLexicographic(a, c);
  }

  /** What a sort by the comparator promises: neighbours in order. */
  predicate SortedByPickOrder(s: seq<Lifted>) {
    forall i :: 0 <= i < |s| - 1 ==> PickOrder(s[i], s[i + 1]) <= 0
  }

  lemma {:induction false} HeadBeatsAll(s: seq<Lifted>, k: nat)
    requires SortedByPickOrder(s) && k < |s|
    ensures PickOrder(s[0], s[k]) <= 0
    decreases k
  {
    if k > 0 {
      HeadBeatsAll(s, k - 1);
      OrderIsTransitive(s[0], s[k - 1], s[k]);
    }
  }

  /** Whatever sorted arrangement the sort makes of the candidates, nothing among them goes before its head. */
  lemma HeadIsBest(candidates: seq<Lifted>, sorted: seq<Lifted>, other: Lifted)
    requires multiset(sorted) == multiset(candidates) && SortedByPickOrder(sorted) && other in candidates
    ensures |sorted| > 0 && sorted[0] in candidates && !GoesFirst(other, sorted[0])
  {
    assert other in multiset(sorted);
    var k :| 0 <= k < |sorted| && sorted[k] == other;
    HeadBeatsAll(sorted, k);
    OrderIsLexicographic(sorted[0], other);
    assert sorted[0] in multiset(sorted);
  }
}
