/**
 * The add-car hooks of src/viewmodels/handling/addCar/useAddCarForm.ts and
 * src/viewmodel/handling/addCar/useAddCarForm.ts: the form state, the photo
 * effect, `handleAddCar`, and in the newer hook the effect that clears a
 * model the chosen brand does not list.
 */
module AddCarForm {

  import opened Wrappers
  import opened CarEntity
  import opened JsText
  import opened CarForms
  import CarValidation
  import CarImageUpdater

  /** The newer hook's model effect: with a brand chosen, a model whose text
      (`model?.toString() || ''`) is not among the brand's catalogue names
      becomes `null`. */
  function ResetUnlistedModel(f: CarForm, catalogue: Option<seq<SupportedCar>>): (r: CarForm)
    ensures r == f || r == f.(model := None)
    ensures !TruthyText(f.brand) ==> r == f
    ensures TruthyText(f.brand) && r.model.Some? ==> r.model.value in BrandModelNames(catalogue, f.brand)
    ensures TruthyText(f.brand) && f.model.Some? && r.model.None? ==>
      f.model.value !in BrandModelNames(catalogue, f.brand)
  {
    if TruthyText(f.brand) && TextOrEmpty(f.model) !in BrandModelNames(catalogue, f.brand) then f.(model := None)
    else f
  }

  lemma ResetUnlistedModelIdempotent(f: CarForm, catalogue: Option<seq<SupportedCar>>)
    ensures ResetUnlistedModel(ResetUnlistedModel(f, catalogue), catalogue) == ResetUnlistedModel(f, catalogue)
  {
  }

  /** A model the brand lists is kept, whatever else the form holds. */
  lemma ListedModelKept(f: CarForm, catalogue: Option<seq<SupportedCar>>)
    requires f.model.Some? && f.model.value in BrandModelNames(catalogue, f.brand)
    ensures ResetUnlistedModel(f, catalogue) == f
  {
  }

  method ApplyModelReset(state: FormState, catalogue: Option<seq<SupportedCar>>)
    modifies state
    ensures state.carData == ResetUnlistedModel(old(state.carData), catalogue)
  {
    if TruthyText(state.carData.brand) && TextOrEmpty(state.carData.model) !in BrandModelNames(catalogue, state.carData.brand) {
      state.SetCarData(state.carData.(model := None));
    }
  }

  /** `handleAddCar` of both hooks: `validateCarForm` alerts on an
      incomplete form and `handleAddCar` alerts once more, submitting
      nothing; a complete form submits its car. */
  function HandleAddCar(f: CarForm, id: string, userId: string, now: string, accepted: bool): (r: Outcome)
    ensures r.submitted.Some? <==> IsComplete(f)
    ensures IsComplete(f) ==> r == Submit(NewCar(f, id, userId, now), accepted)
    ensures !IsComplete(f) ==> r.alerts == [FillOutAlert, FillOutAlert] && !r.wentBack
    ensures r.wentBack <==> IsComplete(f) && accepted
  {
    var v := CarValidation.ValidateCarForm(f);
    if !v.valid then Outcome(None, v.alerts + [FillOutAlert], false)
    else Submit(NewCar(f, id, userId, now), accepted)
  }

  const Catalogue := [SupportedCar("Toyota", "url", [SupportedCarModel("Corolla", "")])]
  const OtherCatalogue := [SupportedCar("Honda", "url", [SupportedCarModel("Civic", "")])]

  function Text(s: string): FormValue { TextValue(Some(s)) }

  /** The submission case of src/viewmodels/handling/addCar/__tests__/useAddCarForm.test.ts:
      the five fields set one by one, the car submitted for user '123' with
      an empty photo, and the success alert. */
  method SubmitTestCase(id: string, now: string) returns (r: Outcome)
    ensures r.submitted.Some? && r.submitted.value.userId == "123"
    ensures var c := r.submitted.value;
      c.brand == "Toyota" && c.model == "Corolla" && c.makeYear == 2022 && c.gearbox == Manual &&
      c.color == "Black" && c.photoUrl == ""
    ensures r.alerts == [SuccessAlert] && r.wentBack
  {
    var state := new FormState();
    state.UpdateCarData(BrandKey, Text("Toyota"));
    state.UpdateCarData(ModelKey, Text("Corolla"));
    state.UpdateCarData(MakeYearKey, YearValue(Some(2022)));
    state.UpdateCarData(GearboxKey, GearboxValue(Some(Manual)));
    state.UpdateCarData(ColorKey, Text("Black"));
    r := HandleAddCar(state.carData, id, "123", now, true);
  }

  /** The model-reset case of the same tests: Corolla stays while the
      catalogue lists it under Toyota, and is cleared once the brand is
      Honda and the catalogue lists only the Civic. */
  method ModelResetTestCase() returns (first: Option<string>, second: Option<string>)
    ensures first == Some("Corolla") && second == None
  {
    var state := new FormState();
    state.UpdateCarData(BrandKey, Text("Toyota"));
    ApplyModelReset(state, Some(Catalogue));
    state.UpdateCarData(ModelKey, Text("Corolla"));
    assert BrandModelNames(Some(Catalogue), Some("Toyota")) == ["Corolla"] by {
      assert FindBrand(Some(Catalogue), Some("Toyota")) == Some(Catalogue[0]);
    }
    ApplyModelReset(state, Some(Catalogue));
    first := state.carData.model;
    state.UpdateCarData(BrandKey, Text("Honda"));
    assert BrandModelNames(Some(OtherCatalogue), Some("Honda")) == ["Civic"] by {
      assert FindBrand(Some(OtherCatalogue), Some("Honda")) == Some(OtherCatalogue[0]);
    }
    ApplyModelReset(state, Some(OtherCatalogue));
    second := state.carData.model;
  }
}
