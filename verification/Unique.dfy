/** Lists without repetition: `new Set`, and places of a list. */
module Unique {

  predicate NoTwice<T(==)>(list: seq<T>) {
    forall i, j :: 0 <= i < j < |list| ==> list[i] != list[j]
  }

  /** `[...new Set(list)]`: every element once, at the place of its first occurrence. */
  function Distinct<T(==)>(list: seq<T>): seq<T> {
    if list == [] then []
    else
      var before, last := Distinct(list[..|list| - 1]), list[|list| - 1];
      if last in before then before else before + [last]
  }

  lemma {:induction false} DistinctHasAll<T>(list: seq<T>)
    ensures NoTwice(Distinct(list)) && forall x :: x in Distinct(list) <==> x in list
  {
    if list != [] {
      var front, last := list[..|list| - 1], list[|list| - 1];
      assert list == front + [last];
      DistinctHasAll(front);
    }
  }

  /** The element stands somewhere before the other one. */
  predicate Precedes<T(==)>(list: seq<T>, x: T, y: T) {
    exists i, j :: 0 <= i < j < |list| && list[i] == x && list[j] == y
  }

  /** What occurs in the beginning of a list precedes what occurs only behind it. */
  lemma {:induction false} DistinctKeepsFirst<T>(front: seq<T>, back: seq<T>, x: T, y: T)
    requires x in front && y in back && y !in front
    ensures Precedes(Distinct(front + back), x, y)
  {
    var init, last := back[..|back| - 1], back[|back| - 1];
    assert back == init + [last] && (front + back)[..|front + back| - 1] == front + init;
    var before := Distinct(front + init);
    DistinctHasAll(front + init);
    if y in init {
      DistinctKeepsFirst(front, init, x, y);
      var i, j :| 0 <= i < j < |before| && before[i] == x && before[j] == y;
      assert Distinct(front + back)[i] == x && Distinct(front + back)[j] == y;
    } else {
      assert x in before && y !in before;
      var i :| 0 <= i < |before| && before[i] == x;
      assert Distinct(front + back) == before + [y];
      assert Distinct(front + back)[i] == x && Distinct(front + back)[|before|] == y;
    }
  }

  // ----- places -----

  /** Some places in a list, in ascending order. */
  predicate Places(places: seq<nat>, count: nat) {
    && (forall i :: 0 <= i < |places| ==> places[i] < count)
    && (forall i, j :: 0 <= i < j < |places| ==> places[i] < places[j])
  }

  lemma PlaceBehind(places: seq<nat>, last: nat)
    requires Places(places, last)
    ensures Places(places, last + 1)
    ensures Places(places + [last], last + 1) && forall k: nat :: k in places + [last] <==> k in places || k == last
  {
  }

  lemma {:induction false} PlacesFit(places: seq<nat>, count: nat)
    requires Places(places, count)
    ensures |places| <= count
  {
    if places != [] {
      PlacesFit(places[..|places| - 1], places[|places| - 1]);
    }
  }

  lemma LastPlace(places: seq<nat>, count: nat)
    requires count > 0 && Places(places, count) && (count - 1) in places
    ensures places != [] && places[|places| - 1] == count - 1
  {
    var i :| 0 <= i < |places| && places[i] == count - 1;
  }

  lemma AllPlaces(places: seq<nat>, count: nat)
    requires Places(places, count) && forall k: nat :: k < count ==> k in places
    ensures |places| == count && forall k :: 0 <= k < count ==> places[k] == k
    decreases count
  {
    PlacesFit(places, count);
    if count > 0 {
      LastPlace(places, count);
      var init := places[..|places| - 1];
      assert places == init + [count - 1];
      forall k: nat | k < count - 1
        ensures k in init
      {
        assert k in places;
      }
      AllPlaces(init, count - 1);
    }
  }
}
