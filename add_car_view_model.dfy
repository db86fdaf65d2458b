/**
 * The add-car view model of src/viewmodel/useAddCarViewModel.ts: a form
 * without a photo field, 21 years to pick from, the models of the chosen
 * brand, and a submission with a fixed photo.
 */
module AddCarViewModel {

  import opened Wrappers
  import opened CarEntity
  import opened JsText
  import opened CarForms
  import YearOptions

  /** The photo every car posted from this view model carries. */
  const FixedPhotoUrl := "https://images.unsplash.com/photo-1677764822934-7c9a3d1cb768?crop=entropy&cs=tinysrgb&fit=max&fm=jpg&ixid=M3w2NjQwMTR8MHwxfHNlYXJjaHwxfHxTa29kYSUyME9jdGF2aWElMjBjYXJ8ZW58MHx8fHwxNzI4NzQxNTc4fDA&ixlib=rb-4.0.3&q=80&w=1080"

  /** `yearRange`: the current year and the 20 before it, newest first. */
  function YearRange(currentYear: int): (r: seq<int>)
    ensures |r| == 21 && r[0] == currentYear && r[20] == currentYear - 20
    ensures forall y :: y in r <==> currentYear - 21 < y <= currentYear
  {
    var r := YearOptions.DescendingYears(currentYear, 21);
    forall y ensures y in r <==> currentYear - 21 < y <= currentYear {
      YearOptions.DescendingYearsMembers(currentYear, 21, y);
    }
    r
  }

  /** `filteredModels`: the models of the first catalogue entry of the
      chosen brand, `[]` when there is none. */
  function FilteredModels(catalogue: Option<seq<SupportedCar>>, brand: Option<string>): (r: seq<SupportedCarModel>)
    ensures FindBrand(catalogue, brand).None? ==> r == []
    ensures FindBrand(catalogue, brand).Some? ==> r == FindBrand(catalogue, brand).value.models
    ensures brand.None? ==> r == []
  {
    var b := FindBrand(catalogue, brand);
    if b.None? then [] else b.value.models
  }

  /** `updateCarData` on the five form keys (the form has no photo), then the
      effect that clears the model on every change of brand. The photo stays
      `null` throughout. */
  method UpdateCarData(state: FormState, k: FormKey, v: FormValue)
    requires Fits(k, v) && k != PhotoUrlKey
    modifies state
    ensures state.carData.photoUrl == old(state.carData.photoUrl)
    ensures k == BrandKey && v != Get(old(state.carData), BrandKey) ==>
      state.carData == Set(old(state.carData), k, v).(model := None)
    ensures k != BrandKey || v == Get(old(state.carData), BrandKey) ==>
      state.carData == Set(old(state.carData), k, v)
  {
    UpdateResettingModel(state, k, v);
  }

  /** `handleAddCar`: an incomplete form alerts once and submits nothing; a
      complete one submits its fields with `Number(makeYear)` (the year
      itself) and the fixed photo. */
  function HandleAddCar(f: CarForm, id: string, userId: string, now: string, accepted: bool): (r: Outcome)
    ensures r.submitted.Some? <==> IsComplete(f)
    ensures IsComplete(f) ==> r == Submit(NewCar(f.(photoUrl := Some(FixedPhotoUrl)), id, userId, now), accepted)
    ensures !IsComplete(f) ==> r == Outcome(None, [FillOutAlert], false)
  {
    if !IsComplete(f) then Outcome(None, [FillOutAlert], false)
    else
      Submit(Car(id, userId, f.brand.value, f.model.value, f.gearbox.value, f.color.value, f.makeYear.value,
                 BeforeFirstT(now), FixedPhotoUrl), accepted)
  }

  /** Whatever the form held as a photo, the submitted car shows the fixed
      one. */
  lemma SubmittedPhotoIsFixed(f: CarForm, id: string, userId: string, now: string, accepted: bool)
    requires IsComplete(f)
    ensures HandleAddCar(f, id, userId, now, accepted).submitted.value.photoUrl == FixedPhotoUrl
  {
  }
}
