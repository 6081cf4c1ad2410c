/**
 * The list of posts a person makes by hand, taking turns by network. Hand-offs
 * are listed oldest first and link posts newest first; all else is shared.
 */
module HandoffQueue {
  import opened Sets

  datatype Card = Card(id: int, network: int, createdAt: int)

  /** Four hours in milliseconds. */
  const COOLDOWN: int := 14_400_000

  datatype Done = Done(network: int, at: int)

  /** A network with a card done inside the last four hours, the edge included. */
  predicate Cooling(done: seq<Done>, network: int, now: int) {
    exists i :: 0 <= i < |done| && done[i].network == network && done[i].at >= now - COOLDOWN
  }

  /** Which of two cards of a network comes first. */
  predicate Earlier(a: Card, b: Card, newestFirst: bool) {
    if a.createdAt == b.createdAt then a.id < b.id
    else if newestFirst then a.createdAt > b.createdAt
    else a.createdAt < b.createdAt
  }

  function SameNetworkBefore(cards: set<Card>, c: Card, newestFirst: bool): set<Card> {
    set d | d in cards && d.network == c.network && Earlier(d, c, newestFirst)
  }

  /** The card's place in its own network's queue, from 1. */
  function Turn(cards: set<Card>, c: Card, newestFirst: bool): nat {
    |SameNetworkBefore(cards, c, newestFirst)| + 1
  }

  /** The order of the list: rested networks, then turns, then age, then network. */
  datatype Place = Place(cooling: bool, turn: nat, createdAt: int, network: int, newestFirst: bool)

  predicate Precedes(a: Place, b: Place) {
    if a.cooling != b.cooling then b.cooling
    else if a.turn != b.turn then a.turn < b.turn
    else if a.createdAt != b.createdAt then
      (if a.newestFirst then a.createdAt > b.createdAt else a.createdAt < b.createdAt)
    else a.network < b.network
  }

  datatype View = View(cards: set<Card>, done: seq<Done>, now: int, newestFirst: bool)

  function PlaceOf(v: View, c: Card): Place {
    Place(Cooling(v.done, c.network, v.now), Turn(v.cards, c, v.newestFirst), c.createdAt, c.network, v.newestFirst)
  }

  predicate Before(v: View, a: Card, b: Card) {
    Precedes(PlaceOf(v, a), PlaceOf(v, b))
  }

  predicate UniqueIds(cards: set<Card>) {
    forall a, b :: a in cards && b in cards && a.id == b.id ==> a == b
  }

  // -------------------------------------------------------------------- turns

  lemma TurnsGoUp(cards: set<Card>, a: Card, b: Card, newestFirst: bool)
    requires a in cards && b in cards && a.network == b.network && Earlier(a, b, newestFirst)
    ensures Turn(cards, a, newestFirst) < Turn(cards, b, newestFirst)
  {
    var beforeA, beforeB := SameNetworkBefore(cards, a, newestFirst), SameNetworkBefore(cards, b, newestFirst);
    assert a !in beforeA && a in beforeB;
    assert beforeA <= beforeB - {a};
    SubsetIsSmaller(beforeA, beforeB - {a});
  }

  /** Within a network the list keeps the queue's own order, so no two cards share a place. */
  lemma SameNetworkInOrder(v: View, a: Card, b: Card)
    requires UniqueIds(v.cards) && a in v.cards && b in v.cards && a.network == b.network && a != b
    ensures Before(v, a, b) <==> Earlier(a, b, v.newestFirst)
    ensures Before(v, a, b) || Before(v, b, a)
  {
    if Earlier(a, b, v.newestFirst) {
      TurnsGoUp(v.cards, a, b, v.newestFirst);
    } else {
      assert Earlier(b, a, v.newestFirst);
      TurnsGoUp(v.cards, b, a, v.newestFirst);
    }
  }

  lemma AlwaysComparable(v: View, a: Card, b: Card)
    requires UniqueIds(v.cards) && a in v.cards && b in v.cards && a != b
    ensures Before(v, a, b) != Before(v, b, a)
  {
    if a.network == b.network {
      SameNetworkInOrder(v, a, b);
    }
  }

  // --------------------------------------------------------------------- list

  function Inserted(v: View, listed: seq<Card>, c: Card): seq<Card>
    decreases |listed|
  {
    if listed == [] || Before(v, c, listed[0]) then [c] + listed
    else [listed[0]] + Inserted(v, listed[1..], c)
  }

  /** Insertion sort of the rows in whatever order the table gives them. */
  function Arranged(v: View, rows: seq<Card>): seq<Card>
    decreases |rows|
  {
    if rows == [] then [] else Inserted(v, Arranged(v, rows[1..]), rows[0])
  }

  function ListHandoffs(v: View, rows: seq<Card>, limit: nat): seq<Card> {
    var all := Arranged(v, rows);
    if |all| <= limit then all else all[..limit]
  }

  ghost predicate InOrder(v: View, listed: seq<Card>) {
    forall i, j :: 0 <= i < j < |listed| ==> Before(v, listed[i], listed[j])
  }

  predicate AreRows(v: View, rows: seq<Card>) {
    && (forall i, j :: 0 <= i < j < |rows| ==> rows[i] != rows[j])
    && (forall c :: c in rows ==> c in v.cards)
    && (forall c :: c in v.cards ==> c in rows)
  }

  lemma {:induction false} InsertedElements(v: View, listed: seq<Card>, c: Card)
    ensures multiset(Inserted(v, listed, c)) == multiset(listed) + multiset{c}
    decreases |listed|
  {
    if listed != [] && !Before(v, c, listed[0]) {
      InsertedElements(v, listed[1..], c);
      assert listed == [listed[0]] + listed[1..];
    }
  }

  lemma BeforeIsTransitive(v: View, a: Card, b: Card, c: Card)
    requires Before(v, a, b) && Before(v, b, c)
    ensures Before(v, a, c)
  {
  }

  lemma InOrderFromFirst(v: View, c: Card, rest: seq<Card>)
    requires InOrder(v, rest) && forall k :: 0 <= k < |rest| ==> Before(v, c, rest[k])
    ensures InOrder(v, [c] + rest)
  {
  }

  lemma {:induction false} InsertedInOrder(v: View, listed: seq<Card>, c: Card)
    requires UniqueIds(v.cards) && c in v.cards && c !in listed
    requires InOrder(v, listed) && forall i :: 0 <= i < |listed| ==> listed[i] in v.cards
    ensures InOrder(v, Inserted(v, listed, c))
    decreases |listed|
  {
    if listed != [] {
      AlwaysComparable(v, c, listed[0]);
      if Before(v, c, listed[0]) {
        forall k | 0 <= k < |listed| ensures Before(v, c, listed[k]) {
          if k > 0 {
            BeforeIsTransitive(v, c, listed[0], listed[k]);
          }
        }
        InOrderFromFirst(v, c, listed);
      } else {
        var rest := Inserted(v, listed[1..], c);
        InsertedInOrder(v, listed[1..], c);
        InsertedElements(v, listed[1..], c);
        forall k | 0 <= k < |rest| ensures Before(v, listed[0], rest[k]) {
          assert rest[k] in multiset(rest);
          assert rest[k] == c || rest[k] in listed[1..];
        }
        InOrderFromFirst(v, listed[0], rest);
      }
    }
  }

  lemma {:induction false} ArrangedFacts(v: View, rows: seq<Card>)
    requires UniqueIds(v.cards)
    requires forall i, j :: 0 <= i < j < |rows| ==> rows[i] != rows[j]
    requires forall i :: 0 <= i < |rows| ==> rows[i] in v.cards
    ensures InOrder(v, Arranged(v, rows)) && multiset(Arranged(v, rows)) == multiset(rows)
    decreases |rows|
  {
    if rows != [] {
      ArrangedFacts(v, rows[1..]);
      var rest := Arranged(v, rows[1..]);
      assert rows == [rows[0]] + rows[1..];
      forall i | 0 <= i < |rest| ensures rest[i] in v.cards && rest[i] != rows[0] {
        assert rest[i] in multiset(rest);
        assert rest[i] in rows[1..];
      }
      InsertedElements(v, rest, rows[0]);
      InsertedInOrder(v, rest, rows[0]);
    }
  }

  /** The list is the first `limit` of every pending card, each once, in the order of the list. */
  lemma ListIsAPrefixOfAll(v: View, rows: seq<Card>, limit: nat)
    requires UniqueIds(v.cards) && AreRows(v, rows)
    ensures multiset(Arranged(v, rows)) == multiset(rows) && InOrder(v, Arranged(v, rows))
    ensures ListHandoffs(v, rows, limit) <= Arranged(v, rows)
    ensures |ListHandoffs(v, rows, limit)| == if |rows| <= limit then |rows| else limit
  {
    ArrangedFacts(v, rows);
    assert |multiset(Arranged(v, rows))| == |multiset(rows)|;
  }

  /** A complete list: every pending card once, in order. */
  ghost predicate IsList(v: View, listed: seq<Card>) {
    && InOrder(v, listed)
    && (forall i, j :: 0 <= i < j < |listed| ==> listed[i] != listed[j])
    && (forall c :: c in v.cards <==> c in listed)
  }

  lemma ArrangedIsList(v: View, rows: seq<Card>)
    requires UniqueIds(v.cards) && AreRows(v, rows)
    ensures IsList(v, Arranged(v, rows))
  {
    ArrangedFacts(v, rows);
    var all := Arranged(v, rows);
    forall c ensures c in v.cards <==> c in all {
      assert c in multiset(all) <==> c in multiset(rows);
    }
    forall i, j | 0 <= i < j < |all| ensures all[i] != all[j] {
      assert Before(v, all[i], all[j]);
    }
  }

  // ----------------------------------------------------------------- fairness

  /** No cooling network's card comes before a rested one's, and each network's cards stay in its own order. */
  lemma RestedFirstAndFifo(v: View, listed: seq<Card>, i: nat, j: nat)
    requires UniqueIds(v.cards) && IsList(v, listed) && i < j < |listed|
    ensures Cooling(v.done, listed[i].network, v.now) ==> Cooling(v.done, listed[j].network, v.now)
    ensures listed[i].network == listed[j].network ==> Earlier(listed[i], listed[j], v.newestFirst)
  {
    if listed[i].network == listed[j].network {
      SameNetworkInOrder(v, listed[i], listed[j]);
    }
  }

  /** A network rests for four hours after a card of it is done. */
  lemma CoolingTells(done: seq<Done>, network: int, now: int)
    ensures Cooling(done, network, now) <==>
            exists d :: d in done && d.network == network && now - d.at <= 4 * 60 * 60 * 1000
  {
    if exists d :: d in done && d.network == network && now - d.at <= 4 * 60 * 60 * 1000 {
      var d :| d in done && d.network == network && now - d.at <= 4 * 60 * 60 * 1000;
      var i :| 0 <= i < |done| && done[i] == d;
    }
    if Cooling(done, network, now) {
      var i :| 0 <= i < |done| && done[i].network == network && done[i].at >= now - COOLDOWN;
      assert done[i] in done;
    }
  }

  /**
   * The order of the list in its own words. Within a network: oldest first, or
   * newest first for link posts, the smaller id first of two made together. Of
   * two networks both rested or both resting: the card with fewer of its own
   * network listed before it, then by age the same way, then by network.
   */
  lemma ListOrderTells(v: View, listed: seq<Card>, i: nat, j: nat)
    requires UniqueIds(v.cards) && IsList(v, listed) && i < j < |listed|
    ensures var a, b := listed[i], listed[j];
            var older := if v.newestFirst then a.createdAt > b.createdAt else a.createdAt < b.createdAt;
            var mine, theirs := |OfNetwork(listed[..i], a.network)|, |OfNetwork(listed[..j], b.network)|;
      && (a.network == b.network ==> older || (a.createdAt == b.createdAt && a.id < b.id))
      && (Cooling(v.done, a.network, v.now) == Cooling(v.done, b.network, v.now) ==>
          mine < theirs || (mine == theirs && (older || (a.createdAt == b.createdAt && a.network < b.network))))
  {
    RestedFirstAndFifo(v, listed, i, j);
    TurnIsItsPlace(v, listed, i);
    TurnIsItsPlace(v, listed, j);
    assert Before(v, listed[i], listed[j]);
  }

  function OfNetwork(listed: seq<Card>, network: int): set<Card> {
    set c | c in listed && c.network == network
  }

  /** The cards of a network listed before one of its cards are those ahead of it in the network's queue. */
  lemma ListedBeforeIsAhead(v: View, listed: seq<Card>, i: nat)
    requires UniqueIds(v.cards) && IsList(v, listed) && i < |listed|
    ensures OfNetwork(listed[..i], listed[i].network) == SameNetworkBefore(v.cards, listed[i], v.newestFirst)
  {
    var c := listed[i];
    forall d ensures d in OfNetwork(listed[..i], c.network) <==> d in SameNetworkBefore(v.cards, c, v.newestFirst) {
      if d in OfNetwork(listed[..i], c.network) {
        var k :| 0 <= k < |listed[..i]| && listed[..i][k] == d;
        RestedFirstAndFifo(v, listed, k, i);
      }
      if d in SameNetworkBefore(v.cards, c, v.newestFirst) {
        AheadIsListedBefore(v, listed, i, d);
      }
    }
  }

  lemma AheadIsListedBefore(v: View, listed: seq<Card>, i: nat, d: Card)
    requires UniqueIds(v.cards) && IsList(v, listed) && i < |listed|
    requires d in SameNetworkBefore(v.cards, listed[i], v.newestFirst)
    ensures d in listed[..i]
  {
    var k :| 0 <= k < |listed| && listed[k] == d;
    SameNetworkInOrder(v, d, listed[i]);
    AlwaysComparable(v, d, listed[i]);
    assert k < i;
    assert listed[..i][k] == d;
  }

  lemma TurnIsItsPlace(v: View, listed: seq<Card>, i: nat)
    requires UniqueIds(v.cards) && IsList(v, listed) && i < |listed|
    ensures |OfNetwork(listed[..i], listed[i].network)| + 1 == Turn(v.cards, listed[i], v.newestFirst)
  {
    ListedBeforeIsAhead(v, listed, i);
  }

  lemma {:induction false} LastOfNetwork(listed: seq<Card>, n: nat, network: int) returns (i: nat)
    requires n <= |listed| && OfNetwork(listed[..n], network) != {}
    ensures i < n && listed[i].network == network
    ensures OfNetwork(listed[..n], network) == OfNetwork(listed[..i], network) + {listed[i]}
    decreases n
  {
    assert n > 0;
    assert listed[..n] == listed[..n - 1] + [listed[n - 1]];
    if listed[n - 1].network == network {
      i := n - 1;
    } else {
      assert OfNetwork(listed[..n], network) == OfNetwork(listed[..n - 1], network);
      i := LastOfNetwork(listed, n - 1, network);
    }
  }

  lemma {:induction false} NextOfNetwork(listed: seq<Card>, n: nat, network: int, k: nat) returns (j: nat)
    requires n <= k < |listed| && listed[k].network == network
    ensures n <= j <= k && listed[j].network == network
    ensures OfNetwork(listed[..j], network) == OfNetwork(listed[..n], network)
    decreases k - n
  {
    if listed[n].network == network {
      j := n;
    } else {
      j := NextOfNetwork(listed, n + 1, network, k);
      assert listed[..n + 1] == listed[..n] + [listed[n]];
      assert OfNetwork(listed[..n + 1], network) == OfNetwork(listed[..n], network);
    }
  }

  /** In every prefix a rested network is at most one card ahead of any rested network that still has cards to come. */
  lemma AtMostOneAhead(v: View, listed: seq<Card>, n: nat, a: int, b: int, k: nat)
    requires UniqueIds(v.cards) && IsList(v, listed)
    requires !Cooling(v.done, a, v.now) && !Cooling(v.done, b, v.now)
    requires n <= k < |listed| && listed[k].network == b
    ensures |OfNetwork(listed[..n], a)| <= |OfNetwork(listed[..n], b)| + 1
  {
    if OfNetwork(listed[..n], a) != {} {
      var i := LastOfNetwork(listed, n, a);
      var j := NextOfNetwork(listed, n, b, k);
      TurnIsItsPlace(v, listed, i);
      TurnIsItsPlace(v, listed, j);
      assert Before(v, listed[i], listed[j]);
      OneMoreAtMost(OfNetwork(listed[..i], a), listed[i]);
    }
  }

  lemma OneMoreAtMost(s: set<Card>, c: Card)
    ensures |s + {c}| <= |s| + 1
  {
    if c in s {
      assert s + {c} == s;
    }
  }

  /** Whoever does the top card posts on a network used in the last four hours only when every network with work was. */
  lemma TopRepeatsIff(v: View, rows: seq<Card>)
    requires UniqueIds(v.cards) && AreRows(v, rows) && rows != []
    ensures |ListHandoffs(v, rows, 1)| == 1
    ensures Cooling(v.done, ListHandoffs(v, rows, 1)[0].network, v.now) <==>
            forall c :: c in v.cards ==> Cooling(v.done, c.network, v.now)
  {
    ArrangedIsList(v, rows);
    ListIsAPrefixOfAll(v, rows, 1);
    var all := Arranged(v, rows);
    assert all[0] in v.cards;
    forall c | c in v.cards && Cooling(v.done, all[0].network, v.now) ensures Cooling(v.done, c.network, v.now) {
      var k :| 0 <= k < |all| && all[k] == c;
      if k > 0 {
        RestedFirstAndFifo(v, all, 0, k);
      }
    }
  }
}
