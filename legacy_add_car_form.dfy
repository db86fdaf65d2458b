/**
 * The older add-car hook of src/viewmodel/handling/useAddCarForm.ts: its
 * own photo effect (the model image stored as it is), an effect that clears
 * the model on every change of brand, `validateForm`, which alerts once,
 * `handleAddCar`, and the 20 year options.
 */
module LegacyAddCarForm {

  import opened Wrappers
  import opened CarEntity
  import opened JsText
  import opened CarForms
  import CarValidation
  import CarImageUpdater
  import YearOptions

  /** `yearOptions`: the last 20 years, newest first. */
  function YearOptionsOf(currentYear: int): (r: seq<int>)
    ensures |r| == 20 && r[0] == currentYear && r[19] == currentYear - 19
    ensures forall i :: 0 <= i < 20 ==> r[i] == currentYear - i
  {
    YearOptions.LastTwentyYears(currentYear)
  }

  /** `updateCarData` and then the brand effect: changing the brand clears
      the model, setting anything else (or the same brand) changes only that
      key. */
  method UpdateCarData(state: FormState, k: FormKey, v: FormValue)
    requires Fits(k, v)
    modifies state
    ensures k == BrandKey && v != Get(old(state.carData), BrandKey) ==>
      state.carData == Set(old(state.carData), k, v).(model := None)
    ensures k != BrandKey || v == Get(old(state.carData), BrandKey) ==>
      state.carData == Set(old(state.carData), k, v)
  {
    UpdateResettingModel(state, k, v);
  }

  /** The photo effect of this hook: the model's image is stored even when
      it is empty. */
  method ApplyPhotoUpdate(state: FormState, catalogue: Option<seq<SupportedCar>>)
    modifies state
    ensures state.carData == CarImageUpdater.UpdatedPhoto(old(state.carData), catalogue, CarImageUpdater.ImageAsIs)
  {
    CarImageUpdater.ApplyPhotoUpdate(state, catalogue, CarImageUpdater.ImageAsIs);
  }

  /** `handleAddCar`: `validateForm` alerts once on an incomplete form and
      nothing is submitted; a complete form submits its car. */
  function HandleAddCar(f: CarForm, id: string, userId: string, now: string, accepted: bool): (r: Outcome)
    ensures r.submitted.Some? <==> IsComplete(f)
    ensures IsComplete(f) ==> r == Submit(NewCar(f, id, userId, now), accepted)
    ensures !IsComplete(f) ==> r.alerts == [FillOutAlert] && !r.wentBack
  {
    var v := CarValidation.ValidateCarForm(f);
    if !v.valid then Outcome(None, v.alerts, false)
    else Submit(NewCar(f, id, userId, now), accepted)
  }

  /** Choosing the brand first and the model next keeps both; choosing a
      different brand afterwards clears the model again. */
  method BrandThenModel(brand: string, model: string, other: string) returns (kept: CarForm, cleared: CarForm)
    requires other != brand
    ensures kept.brand == Some(brand) && kept.model == Some(model)
    ensures cleared.brand == Some(other) && cleared.model == None
  {
    var state := new FormState();
    UpdateCarData(state, BrandKey, TextValue(Some(brand)));
    UpdateCarData(state, ModelKey, TextValue(Some(model)));
    kept := state.carData;
    UpdateCarData(state, BrandKey, TextValue(Some(other)));
    cleared := state.carData;
  }
}
