/**
 * The photo effect of src/viewmodel/handling/addCar/useCarImageUpdater.ts
 * (and its inline twin in src/viewmodel/handling/useAddCarForm.ts): with a
 * brand chosen the form's photo becomes the catalogue's brand image, or,
 * once a model is chosen too, that model's image.
 */
module CarImageUpdater {

  import opened Wrappers
  import opened CarEntity
  import opened JsText
  import opened CarForms

  /** How a model's image is stored: `model?.image || null` turns an empty
      image into `null`; the inline version stores `model.image` as it is. */
  datatype ImageRule = ImageOrNull | ImageAsIs

  function ModelPhoto(image: string, rule: ImageRule): Option<string>
  {
    if rule == ImageOrNull && image == "" then None else Some(image)
  }

  /** The photo the effect sets, or `None` when it calls no setter. */
  function PhotoUpdate(f: CarForm, catalogue: Option<seq<SupportedCar>>, rule: ImageRule): (u: Option<Option<string>>)
    ensures u.Some? ==> TruthyText(f.brand) && FindBrand(catalogue, f.brand).Some?
  {
    if TruthyText(f.brand) && !TruthyText(f.model) then
      var b := FindBrand(catalogue, f.brand);
      if b.Some? then Some(Some(b.value.brandImage)) else None
    else if TruthyText(f.brand) && TruthyText(f.model) then
      var b := FindBrand(catalogue, f.brand);
      if b.None? then None
      else
        var m := FindModel(b.value.models, f.model);
        if m.Some? then Some(ModelPhoto(m.value.image, rule)) else None
    else None
  }

  /** The form after the effect: `{...prev, photoUrl}` when it updates. Only
      the photo can change, and nothing changes without a truthy brand that
      the catalogue lists. */
  function UpdatedPhoto(f: CarForm, catalogue: Option<seq<SupportedCar>>, rule: ImageRule): (r: CarForm)
    ensures r == f.(photoUrl := r.photoUrl)
    ensures !TruthyText(f.brand) || FindBrand(catalogue, f.brand).None? ==> r == f
  {
    var u := PhotoUpdate(f, catalogue, rule);
    if u.Some? then f.(photoUrl := u.value) else f
  }

  /** A brand without a model shows the brand's image. */
  lemma BrandImageWithoutModel(f: CarForm, catalogue: Option<seq<SupportedCar>>, rule: ImageRule)
    requires TruthyText(f.brand) && !TruthyText(f.model) && FindBrand(catalogue, f.brand).Some?
    ensures UpdatedPhoto(f, catalogue, rule).photoUrl == Some(FindBrand(catalogue, f.brand).value.brandImage)
  {
  }

  /** A brand with one of its models shows the model's image; under
      `|| null` an empty image becomes `null`. */
  lemma ModelImageWithModel(f: CarForm, catalogue: Option<seq<SupportedCar>>, rule: ImageRule)
    requires TruthyText(f.brand) && TruthyText(f.model) && FindBrand(catalogue, f.brand).Some?
    requires FindModel(FindBrand(catalogue, f.brand).value.models, f.model).Some?
    ensures var m := FindModel(FindBrand(catalogue, f.brand).value.models, f.model).value;
      UpdatedPhoto(f, catalogue, rule).photoUrl ==
        (if rule == ImageOrNull && m.image == "" then None else Some(m.image))
  {
  }

  /** A model the brand does not list leaves the form as it is. */
  lemma UnknownModelUnchanged(f: CarForm, catalogue: Option<seq<SupportedCar>>, rule: ImageRule)
    requires TruthyText(f.model) && FindBrand(catalogue, f.brand).Some?
    requires FindModel(FindBrand(catalogue, f.brand).value.models, f.model).None?
    ensures UpdatedPhoto(f, catalogue, rule) == f
  {
  }

  /** The effect depends only on the brand, the model and the catalogue, so
      running it again changes nothing. */
  lemma UpdatedPhotoIdempotent(f: CarForm, catalogue: Option<seq<SupportedCar>>, rule: ImageRule)
    ensures UpdatedPhoto(UpdatedPhoto(f, catalogue, rule), catalogue, rule) == UpdatedPhoto(f, catalogue, rule)
  {
    var r := UpdatedPhoto(f, catalogue, rule);
    assert r.brand == f.brand && r.model == f.model;
    assert PhotoUpdate(r, catalogue, rule) == PhotoUpdate(f, catalogue, rule);
  }

  /** The two image rules differ only by `''` versus `null`, which the
      submitted car turns into the same `''`. */
  lemma ImageRulesSubmitAlike(f: CarForm, catalogue: Option<seq<SupportedCar>>, id: string, userId: string, now: string)
    requires IsComplete(f)
    ensures NewCar(UpdatedPhoto(f, catalogue, ImageOrNull), id, userId, now) ==
            NewCar(UpdatedPhoto(f, catalogue, ImageAsIs), id, userId, now)
  {
  }

  /** The effect run on the form state. */
  method ApplyPhotoUpdate(state: FormState, catalogue: Option<seq<SupportedCar>>, rule: ImageRule)
    modifies state
    ensures state.carData == UpdatedPhoto(old(state.carData), catalogue, rule)
  {
    var u := PhotoUpdate(state.carData, catalogue, rule);
    if u.Some? {
      state.SetCarData(state.carData.(photoUrl := u.value));
    }
  }

  const Toyota := SupportedCar("Toyota", "https://example.com/toyota.png", [])
  const ToyotaWithCorolla := Toyota.(models := [SupportedCarModel("Corolla", "https://example.com/corolla.png")])

  /** The cases of src/viewmodel/handling/addCar/__tests__/useCarImageUploader.test.ts. */
  lemma ImageUpdaterTestCases()
    ensures var f := EmptyForm.(brand := Some("Toyota"));
      UpdatedPhoto(f, Some([Toyota]), ImageOrNull) == f.(photoUrl := Some("https://example.com/toyota.png"))
    ensures var f := EmptyForm.(brand := Some("Toyota"), model := Some("Corolla"));
      UpdatedPhoto(f, Some([ToyotaWithCorolla]), ImageOrNull) == f.(photoUrl := Some("https://example.com/corolla.png"))
  {
    var f := EmptyForm.(brand := Some("Toyota"), model := Some("Corolla"));
    assert FindBrand(Some([ToyotaWithCorolla]), f.brand) == Some(ToyotaWithCorolla);
    assert FindModel(ToyotaWithCorolla.models, f.model) == Some(ToyotaWithCorolla.models[0]);
  }
}
