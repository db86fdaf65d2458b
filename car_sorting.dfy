/**
 * The sorting hook of src/viewmodel/handling/viewCars/useCarSorting.ts: the
 * sort field and direction are state, and the sorted list is a copy of the
 * cars sorted with the three-way comparator.
 */
module CarSorting {

  import opened Wrappers
  import opened CarEntity
  import opened CarSortKeys
  import JsSort
  import Seqs

  /** `[...cars].sort(comparator)` for the given state. */
  function SortedCars(cars: seq<Car>, sortBy: Option<SortKey>, dir: SortDirection): (r: seq<Car>)
    ensures multiset(r) == multiset(cars)
    ensures |r| == |cars|
  {
    JsSort.SortLength(cars, ThreeWay(sortBy, dir));
    JsSort.SortPermutes(cars, ThreeWay(sortBy, dir));
    JsSort.Sort(cars, ThreeWay(sortBy, dir))
  }

  /** The hook's state: `sortBy` starts at null and the direction at 'desc'. */
  class SortingState {
    var sortBy: Option<SortKey>
    var sortDirection: SortDirection

    constructor()
      ensures sortBy == None && sortDirection == Desc
    {
      sortBy := None;
      sortDirection := Desc;
    }

    method SetSortBy(key: Option<SortKey>)
      modifies this
      ensures sortBy == key && sortDirection == old(sortDirection)
    {
      sortBy := key;
    }

    method SetSortDirection(dir: SortDirection)
      modifies this
      ensures sortDirection == dir && sortBy == old(sortBy)
    {
      sortDirection := dir;
    }

    /** The memoised `sortedCars` of the current state. */
    function Sorted(cars: seq<Car>): (r: seq<Car>)
      reads this
      ensures multiset(r) == multiset(cars)
    {
      SortedCars(cars, sortBy, sortDirection)
    }
  }

  /** Without a sort field (and for a name that is not a key of `Car`, whose
      values are all `undefined`) the cars keep their order. */
  lemma UnsortedWithoutKey(cars: seq<Car>, sortBy: Option<SortKey>, dir: SortDirection)
    requires sortBy.None? || sortBy == Some(NotACarField)
    ensures SortedCars(cars, sortBy, dir) == cars
  {
    JsSort.SortUnchanged(cars, ThreeWay(sortBy, dir));
  }

  /** Sorted on a key, every car comes no later than the cars after it in the
      asked direction: keys never decrease for asc and never increase for desc. */
  lemma SortedInDirection(cars: seq<Car>, f: CarField, dir: SortDirection)
    ensures var r := SortedCars(cars, Some(CarKey(f)), dir);
      forall i, j :: 0 <= i < j < |r| ==> InDirection(dir, KeyOf(r[i], CarKey(f)), KeyOf(r[j], CarKey(f)))
  {
    var cmp := ThreeWay(Some(CarKey(f)), dir);
    ThreeWayIsPreorder(Some(CarKey(f)), dir, cars);
    JsSort.SortSorted(cars, cmp);
    var r := SortedCars(cars, Some(CarKey(f)), dir);
    forall i, j | 0 <= i < j < |r| ensures InDirection(dir, KeyOf(r[i], CarKey(f)), KeyOf(r[j], CarKey(f))) {
      ThreeWayMeaning(f, dir, r[i], r[j]);
    }
  }

  /** The cars whose key has a given value. */
  function WithKey(f: CarField, v: KeyValue): Car -> bool
  {
    (c: Car) => KeyOf(c, CarKey(f)) == v
  }

  /** Stability: cars with equal keys keep their relative order, since the
      comparator answers 0 for them. */
  lemma EqualKeysKeepOrder(cars: seq<Car>, f: CarField, dir: SortDirection, v: KeyValue)
    ensures Seqs.Filter(SortedCars(cars, Some(CarKey(f)), dir), WithKey(f, v)) == Seqs.Filter(cars, WithKey(f, v))
  {
    forall a, b | a in cars && b in cars && WithKey(f, v)(a) && WithKey(f, v)(b)
      ensures ThreeWay(Some(CarKey(f)), dir)(a, b) <= 0
    {
      ThreeWayMeaning(f, dir, a, b);
    }
    JsSort.SortStable(cars, ThreeWay(Some(CarKey(f)), dir), WithKey(f, v));
  }

  /** The state after construction leaves the list as given. */
  method InitialStateKeepsOrder(cars: seq<Car>) returns (r: seq<Car>)
    ensures r == cars
  {
    var state := new SortingState();
    r := state.Sorted(cars);
    UnsortedWithoutKey(cars, state.sortBy, state.sortDirection);
  }
}
