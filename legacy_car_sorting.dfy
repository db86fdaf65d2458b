/**
 * The sorting hook of src/viewmodel/handling/useCarSorting.ts. Its
 * comparator never answers 0 when a sort field is set: ties get the
 * direction's opposite sign. Nothing is claimed about the order of ties.
 */
module LegacyCarSorting {

  import opened Wrappers
  import opened CarEntity
  import opened CarSortKeys
  import CarSorting
  import JsSort
  import Seqs

  /** `[...cars].sort(comparator)` with the two-way comparator. */
  function SortedCars(cars: seq<Car>, sortBy: Option<SortKey>, dir: SortDirection): (r: seq<Car>)
    ensures multiset(r) == multiset(cars)
    ensures |r| == |cars|
  {
    JsSort.SortLength(cars, TwoWay(sortBy, dir));
    JsSort.SortPermutes(cars, TwoWay(sortBy, dir));
    JsSort.Sort(cars, TwoWay(sortBy, dir))
  }

  /** The hook's state: `sortBy` starts at null and the direction at 'desc'. */
  class SortingState {
    var sortBy: Option<SortKey>
    var sortDirection: SortDirection

    constructor()
      ensures sortBy == None && sortDirection == Desc
    {
      sortBy := None;
      sortDirection := Desc;
    }

    method SetSortBy(key: Option<SortKey>)
      modifies this
      ensures sortBy == key && sortDirection == old(sortDirection)
    {
      sortBy := key;
    }

    method SetSortDirection(dir: SortDirection)
      modifies this
      ensures sortDirection == dir && sortBy == old(sortBy)
    {
      sortDirection := dir;
    }

    function Sorted(cars: seq<Car>): (r: seq<Car>)
      reads this
      ensures multiset(r) == multiset(cars)
    {
      SortedCars(cars, sortBy, sortDirection)
    }
  }

  /** Without a sort field the comparator is 0 throughout and the order stays. */
  lemma UnsortedWithoutKey(cars: seq<Car>, dir: SortDirection)
    ensures SortedCars(cars, None, dir) == cars
  {
    JsSort.SortUnchanged(cars, TwoWay(None, dir));
  }

  /** No two cars of the list share the key. */
  predicate DistinctKeys(cars: seq<Car>, f: CarField)
  {
    forall i, j :: 0 <= i < j < |cars| ==> KeyOf(cars[i], CarKey(f)) != KeyOf(cars[j], CarKey(f))
  }

  lemma DistinctKeysNoDuplicates(cars: seq<Car>, f: CarField)
    requires DistinctKeys(cars, f)
    ensures Seqs.NoDuplicates(cars)
  {
    forall i, j | 0 <= i < j < |cars| ensures cars[i] != cars[j] {
      assert KeyOf(cars[i], CarKey(f)) != KeyOf(cars[j], CarKey(f));
    }
  }

  /** Two different cars of a list with distinct keys have different keys. */
  lemma DifferentCarsDifferentKeys(cars: seq<Car>, f: CarField, a: Car, b: Car)
    requires DistinctKeys(cars, f) && a in cars && b in cars && a != b
    ensures KeyOf(a, CarKey(f)) != KeyOf(b, CarKey(f))
  {
    var i :| 0 <= i < |cars| && cars[i] == a;
    var j :| 0 <= j < |cars| && cars[j] == b;
    if i < j { assert KeyOf(cars[i], CarKey(f)) != KeyOf(cars[j], CarKey(f)); }
    else { assert KeyOf(cars[j], CarKey(f)) != KeyOf(cars[i], CarKey(f)); }
  }

  /** With pairwise distinct keys the two-way comparator sorts exactly as the
      three-way one. */
  lemma DistinctKeysSortAsThreeWay(cars: seq<Car>, f: CarField, dir: SortDirection)
    requires DistinctKeys(cars, f)
    ensures SortedCars(cars, Some(CarKey(f)), dir) == CarSorting.SortedCars(cars, Some(CarKey(f)), dir)
  {
    var k := CarKey(f);
    DistinctKeysNoDuplicates(cars, f);
    forall a, b | a in cars && b in cars && a != b ensures TwoWay(Some(k), dir)(a, b) == ThreeWay(Some(k), dir)(a, b) {
      DifferentCarsDifferentKeys(cars, f, a, b);
      TwoWayAgreesOnDistinctKeys(f, dir, a, b);
    }
    JsSort.SortAgrees(cars, TwoWay(Some(k), dir), ThreeWay(Some(k), dir));
  }

  /** With pairwise distinct keys the keys come out strictly increasing for
      asc and strictly decreasing for desc. */
  lemma DistinctKeysOrdered(cars: seq<Car>, f: CarField, dir: SortDirection)
    requires DistinctKeys(cars, f)
    ensures var r := SortedCars(cars, Some(CarKey(f)), dir);
      forall i, j :: 0 <= i < j < |r| ==>
        if dir == Asc then KeyLess(KeyOf(r[i], CarKey(f)), KeyOf(r[j], CarKey(f)))
        else KeyLess(KeyOf(r[j], CarKey(f)), KeyOf(r[i], CarKey(f)))
  {
    var k := CarKey(f);
    var r := SortedCars(cars, Some(k), dir);
    DistinctKeysSortAsThreeWay(cars, f, dir);
    CarSorting.SortedInDirection(cars, f, dir);
    DistinctKeysNoDuplicates(cars, f);
    Seqs.PermutationNoDuplicates(cars, r);
    forall i, j | 0 <= i < j < |r|
      ensures if dir == Asc then KeyLess(KeyOf(r[i], k), KeyOf(r[j], k)) else KeyLess(KeyOf(r[j], k), KeyOf(r[i], k))
    {
      assert r[i] in multiset(cars) && r[j] in multiset(cars);
      DifferentCarsDifferentKeys(cars, f, r[i], r[j]);
      FieldKeysComparable(r[i], r[j], f);
      KeyLessOrder(KeyOf(r[i], k), KeyOf(r[j], k), KeyOf(r[i], k));
    }
  }
}
