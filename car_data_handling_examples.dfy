/** The cases of src/viewmodels/handling/viewCars/__tests__/useCarDataHandling.test.ts,
    on its two fixture cars with the signed-in user '1'. */
module CarDataHandlingExamples {

  import opened Wrappers
  import opened CarEntity
  import opened JsText
  import opened CarSortKeys
  import opened CarFixtures
  import CarFilters
  import CarSearch
  import CarSorting
  import CarSearchExamples
  import Seqs
  import JsSort
  import opened CarDataHandling

  const twoCars := [corolla, civic]

  /** Nothing chosen: both cars, the user's own one flagged. */
  lemma UserCarFlags()
    ensures var r := CarsWithUserTag(Some(twoCars), CarFilters.NoFilters, Some("1"), "", None, Desc);
      |r| == 2 && r[0].isUserCar && !r[1].isUserCar
  {
    CarFilters.NoFiltersKeepAll(twoCars, Some("1"));
    CarSearch.BlankQueryKeepsAll(twoCars, "");
    CarSorting.UnsortedWithoutKey(twoCars, None, Desc);
    var r := CarsWithUserTag(Some(twoCars), CarFilters.NoFilters, Some("1"), "", None, Desc);
    assert Untagged(r) == twoCars;
  }

  lemma ModelQuery()
    ensures JoinWords(["Corolla"]) == "Corolla"
    ensures forall k :: 0 <= k < 1 ==> IsWord(["Corolla"][k])
  {
  }

  lemma CorollaMatchesModel() ensures CarSearch.InValues(["corolla"])(corolla)
  {
    CarSearchExamples.CorollaValues();
    CarSearchExamples.MatchByValues(corolla, ["toyota", "corolla", "automatic", "2020", "blue"], ["corolla"]);
  }

  lemma SearchCorolla()
    ensures CarSearch.SearchedCars([corolla], "Corolla") == [corolla]
  {
    ModelQuery();
    CarSearch.SearchByWords([corolla], ["Corolla"]);
    CarSearchExamples.LowerCorolla();
    assert LowerWords(["Corolla"]) == ["corolla"];
    CorollaMatchesModel();
    Seqs.FilterCons(corolla, [], CarSearch.InValues(["corolla"]));
  }

  lemma ToyotaOnly()
    ensures CarFilters.FilteredCars(Some(twoCars), CarFilters.NoFilters.(brand := "Toyota"), Some("1")) == [corolla]
  {
    Filter2(corolla, civic, CarFilters.PassesWith(CarFilters.NoFilters.(brand := "Toyota"), Some("1")));
  }

  /** Brand Toyota, query 'Corolla', sorted by make year: just the Corolla. */
  lemma FiltersSearchAndSortCompose()
    ensures var r := CarsWithUserTag(Some(twoCars), CarFilters.NoFilters.(brand := "Toyota"), Some("1"), "Corolla",
                                     Some(CarKey(MakeYearField)), Desc);
      |r| == 1 && r[0].car.brand == "Toyota" && r[0].car.model == "Corolla"
  {
    ToyotaOnly();
    SearchCorolla();
    var cmp := ThreeWay(Some(CarKey(MakeYearField)), Desc);
    assert [corolla][1..] == [];
    assert JsSort.Sort([corolla], cmp) == [corolla];
    var r := CarsWithUserTag(Some(twoCars), CarFilters.NoFilters.(brand := "Toyota"), Some("1"), "Corolla",
                             Some(CarKey(MakeYearField)), Desc);
    assert Untagged(r) == [corolla];
  }
}
