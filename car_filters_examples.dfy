/** The cases of src/viewmodel/handling/viewCars/__tests__/useCarFilters.test.ts,
    played against the filter state with the fixture cars and user '1'. The
    model-reset effect runs after every change, as it does after a render. */
module CarFiltersExamples {

  import opened Wrappers
  import opened CarEntity
  import opened JsText
  import opened CarOptions
  import opened CarFilters
  import opened CarFixtures
  import Seqs

  lemma ModelsOfMock()
    ensures ModelOptions(Some(carsMock), "") == ["Corolla", "Civic", "Camry"]
  {
    var models := Seqs.Map(carsMock, ModelOf);
    assert models == ["Corolla", "Civic", "Camry"];
    Seqs.DistinctOfDistinct(models);
  }

  method FilterByBrand() returns (count: nat, brand: string)
    ensures count == 2 && brand == "Toyota"
  {
    var state := new FilterState();
    state.SetFilterBrand("Toyota");
    state.ApplyModelReset(Some(carsMock));
    var f := state.Snapshot();
    Filter3(corolla, civic, camry, PassesWith(f, Some("1")));
    count, brand := |state.Filtered(Some(carsMock), Some("1"))|, state.filterBrand;
  }

  method FilterByModel() returns (count: nat, model: string)
    ensures count == 1 && model == "Corolla"
  {
    var state := new FilterState();
    state.SetFilterModel("Corolla");
    ModelsOfMock();
    state.ApplyModelReset(Some(carsMock));
    var f := state.Snapshot();
    Filter3(corolla, civic, camry, PassesWith(f, Some("1")));
    count, model := |state.Filtered(Some(carsMock), Some("1"))|, state.filterModel;
  }

  method FilterByYearRange() returns (count: nat)
    ensures count == 2
  {
    var state := new FilterState();
    state.SetFilterYearFrom(Some(2020));
    state.SetFilterYearTo(Some(2021));
    state.ApplyModelReset(Some(carsMock));
    var f := state.Snapshot();
    Filter3(corolla, civic, camry, PassesWith(f, Some("1")));
    count := |state.Filtered(Some(carsMock), Some("1"))|;
  }

  method FilterByGearbox() returns (count: nat, gearbox: string)
    ensures count == 2 && gearbox == "Automatic"
  {
    var state := new FilterState();
    state.SetFilterGearbox("Automatic");
    state.ApplyModelReset(Some(carsMock));
    var f := state.Snapshot();
    Filter3(corolla, civic, camry, PassesWith(f, Some("1")));
    count, gearbox := |state.Filtered(Some(carsMock), Some("1"))|, state.filterGearbox;
  }

  method ResetAfterBrand() returns (count: nat, brand: string)
    ensures count == 3 && brand == ""
  {
    var state := new FilterState();
    state.SetFilterBrand("Toyota");
    state.ResetFilters();
    state.ApplyModelReset(Some(carsMock));
    NoFiltersKeepAll(carsMock, Some("1"));
    count, brand := |state.Filtered(Some(carsMock), Some("1"))|, state.filterBrand;
  }
}
