/**
 * The composition of src/viewmodels/handling/viewCars/useCarDataHandling.ts:
 * the fetched cars are filtered, the result searched, that result sorted,
 * and every car tagged with whether it belongs to the signed-in user. The
 * search and sort steps are those of src/viewmodel/handling/viewCars/; the
 * newer tree's own useCarSearch.ts and useCarSorting.ts are not part of this
 * model.
 */
module CarDataHandling {

  import opened Wrappers
  import opened CarEntity
  import opened CarOptions
  import opened CarSortKeys
  import CarFilters
  import CarSearch
  import CarSorting
  import Seqs

  /** `{...car, isUserCar}` */
  datatype TaggedCar = TaggedCar(car: Car, isUserCar: bool)

  /** `cars.map(car => ({...car, isUserCar: car.userId === userId}))`: the same
      cars in the same order, each flagged exactly when its owner is the user.
      A missing user id equals no car's owner. */
  function TagUserCars(cars: seq<Car>, userId: Option<string>): (r: seq<TaggedCar>)
    ensures |r| == |cars|
    ensures forall i :: 0 <= i < |r| ==> r[i].car == cars[i] && (r[i].isUserCar <==> userId == Some(cars[i].userId))
  {
    if cars == [] then []
    else [TaggedCar(cars[0], userId == Some(cars[0].userId))] + TagUserCars(cars[1..], userId)
  }

  function Untagged(r: seq<TaggedCar>): (cars: seq<Car>)
    ensures |cars| == |r| && forall i :: 0 <= i < |r| ==> cars[i] == r[i].car
  {
    if r == [] then [] else [r[0].car] + Untagged(r[1..])
  }

  /** Filter, then search, then sort: the list before tagging. */
  function ListedCars(cars: Option<seq<Car>>, f: CarFilters.Filters, userId: Option<string>, query: string,
                      sortBy: Option<SortKey>, dir: SortDirection): seq<Car>
  {
    CarSorting.SortedCars(CarSearch.SearchedCars(CarFilters.FilteredCars(cars, f, userId), query), sortBy, dir)
  }

  /** The `cars` the hook returns, for the given hook states. */
  function CarsWithUserTag(cars: Option<seq<Car>>, f: CarFilters.Filters, userId: Option<string>, query: string,
                           sortBy: Option<SortKey>, dir: SortDirection): (r: seq<TaggedCar>)
    ensures Untagged(r) == ListedCars(cars, f, userId, query, sortBy, dir)
  {
    var listed := ListedCars(cars, f, userId, query, sortBy, dir);
    var r := TagUserCars(listed, userId);
    assert Untagged(r) == listed;
    r
  }

  /** Each step only drops or reorders cars: the list is a permutation of the
      searched filter result, never longer than what was fetched, and every car
      in it was fetched, passes the filters and matches the query. */
  lemma ListedCarsMeaning(cars: Option<seq<Car>>, f: CarFilters.Filters, userId: Option<string>, query: string,
                          sortBy: Option<SortKey>, dir: SortDirection)
    ensures var listed := ListedCars(cars, f, userId, query, sortBy, dir);
      multiset(listed) == multiset(CarSearch.SearchedCars(CarFilters.FilteredCars(cars, f, userId), query)) &&
      |listed| <= |CarsOrEmpty(cars)| &&
      forall c :: c in listed <==>
        c in CarsOrEmpty(cars) && CarFilters.Passes(f, userId, c) &&
        CarSearch.IncludesAll(CarSearch.CarText(c), CarSearch.SearchTerms(query))
  {
    var filtered := CarFilters.FilteredCars(cars, f, userId);
    var searched := CarSearch.SearchedCars(filtered, query);
    var listed := ListedCars(cars, f, userId, query, sortBy, dir);
    CarSearch.SearchKeepsOrder(filtered, query);
    SubsequenceNotLonger(searched, filtered);
    SubsequenceNotLonger(filtered, CarsOrEmpty(cars));
    forall c ensures c in listed <==> c in searched {
      assert c in listed <==> c in multiset(listed);
      assert c in searched <==> c in multiset(searched);
    }
  }

  lemma {:induction false} SubsequenceNotLonger<T>(r: seq<T>, s: seq<T>)
    requires Seqs.IsSubsequence(r, s)
    ensures |r| <= |s|
  {
    if r != [] {
      if r[0] == s[0] && Seqs.IsSubsequence(r[1..], s[1..]) {
        SubsequenceNotLonger(r[1..], s[1..]);
      } else {
        SubsequenceNotLonger(r, s[1..]);
      }
    }
  }

  /** The hook's output: as long as the listed cars, each one of them in the
      same place, flagged exactly when the user owns it. */
  lemma CarsWithUserTagMeaning(cars: Option<seq<Car>>, f: CarFilters.Filters, userId: Option<string>, query: string,
                               sortBy: Option<SortKey>, dir: SortDirection)
    ensures var listed := ListedCars(cars, f, userId, query, sortBy, dir);
      var r := CarsWithUserTag(cars, f, userId, query, sortBy, dir);
      |r| == |listed| <= |CarsOrEmpty(cars)| &&
      forall i :: 0 <= i < |r| ==>
        r[i].car == listed[i] && r[i].car in CarsOrEmpty(cars) && (r[i].isUserCar <==> userId == Some(r[i].car.userId))
  {
    ListedCarsMeaning(cars, f, userId, query, sortBy, dir);
    var listed := ListedCars(cars, f, userId, query, sortBy, dir);
    forall i | 0 <= i < |listed| ensures listed[i] in CarsOrEmpty(cars) {
      assert listed[i] in listed;
    }
  }
}
