/**
 * The add-car form shared by the add-car hooks: the `CarForm` record of
 * src/viewmodel/handling/addCar/useAddCarForm.ts (every field nullable), the
 * single-key update, the completeness test, the catalogue lookup, the `Car`
 * submitted from a complete form, and the outcome of a submission. The
 * alerts and the navigation back are returned as outcomes.
 */
module CarForms {

  import opened Wrappers
  import opened CarEntity
  import opened JsText
  import Seqs

  datatype CarForm = CarForm(
    brand: Option<string>,
    model: Option<string>,
    makeYear: Option<int>,
    gearbox: Option<Gearbox>,
    color: Option<string>,
    photoUrl: Option<string>)

  /** The initial form: every field `null`. */
  const EmptyForm := CarForm(None, None, None, None, None, None)

  /** `keyof CarForm` */
  datatype FormKey = BrandKey | ModelKey | MakeYearKey | GearboxKey | ColorKey | PhotoUrlKey

  /** `CarForm[K]` for some key `K`. */
  datatype FormValue = TextValue(text: Option<string>) | YearValue(year: Option<int>) | GearboxValue(gearbox: Option<Gearbox>)

  function Get(f: CarForm, k: FormKey): FormValue
  {
    match k
    case BrandKey => TextValue(f.brand)
    case ModelKey => TextValue(f.model)
    case MakeYearKey => YearValue(f.makeYear)
    case GearboxKey => GearboxValue(f.gearbox)
    case ColorKey => TextValue(f.color)
    case PhotoUrlKey => TextValue(f.photoUrl)
  }

  /** The value has the type of the key's field. */
  predicate Fits(k: FormKey, v: FormValue)
  {
    match k
    case MakeYearKey => v.YearValue?
    case GearboxKey => v.GearboxValue?
    case _ => v.TextValue?
  }

  /** `{...prev, [key]: value}`: the key holds the value and every other key
      keeps its own. */
  function Set(f: CarForm, k: FormKey, v: FormValue): (r: CarForm)
    requires Fits(k, v)
    ensures Get(r, k) == v
    ensures forall j :: j != k ==> Get(r, j) == Get(f, j)
  {
    match k
    case BrandKey => f.(brand := v.text)
    case ModelKey => f.(model := v.text)
    case MakeYearKey => f.(makeYear := v.year)
    case GearboxKey => f.(gearbox := v.gearbox)
    case ColorKey => f.(color := v.text)
    case PhotoUrlKey => f.(photoUrl := v.text)
  }

  /** Setting a key twice keeps the last value; setting different keys
      commutes. */
  lemma SetLastWins(f: CarForm, k: FormKey, v: FormValue, w: FormValue)
    requires Fits(k, v) && Fits(k, w)
    ensures Set(Set(f, k, v), k, w) == Set(f, k, w)
  {
  }

  lemma SetCommutes(f: CarForm, j: FormKey, v: FormValue, k: FormKey, w: FormValue)
    requires Fits(j, v) && Fits(k, w) && j != k
    ensures Set(Set(f, j, v), k, w) == Set(Set(f, k, w), j, v)
  {
  }

  /** The form state of the add-car hooks: `carData` and its setter. */
  class FormState {
    var carData: CarForm

    constructor()
      ensures carData == EmptyForm
    {
      carData := EmptyForm;
    }

    /** `updateCarData(key, value)` */
    method UpdateCarData(k: FormKey, v: FormValue)
      requires Fits(k, v)
      modifies this
      ensures carData == Set(old(carData), k, v)
    {
      carData := Set(carData, k, v);
    }

    /** A functional update `setCarData(prev => next)`. */
    method SetCarData(next: CarForm)
      modifies this
      ensures carData == next
    {
      carData := next;
    }
  }

  /** `updateCarData(key, value)` followed by the effect that runs on every
      change of `carData.brand` and sets the model to `null`, as in
      src/viewmodel/handling/useAddCarForm.ts and
      src/viewmodel/useAddCarViewModel.ts. */
  method UpdateResettingModel(state: FormState, k: FormKey, v: FormValue)
    requires Fits(k, v)
    modifies state
    ensures var next := Set(old(state.carData), k, v);
      state.carData == if next.brand != old(state.carData.brand) then next.(model := None) else next
  {
    var before := state.carData.brand;
    state.UpdateCarData(k, v);
    if state.carData.brand != before {
      state.SetCarData(state.carData.(model := None));
    }
  }

  /** `!brand || !model || !makeYear || !gearbox || !color` fails: the five
      required fields are all truthy. The photo is not required. */
  predicate IsComplete(f: CarForm)
  {
    TruthyText(f.brand) && TruthyText(f.model) && TruthyNumber(f.makeYear) &&
    f.gearbox.Some? && TruthyText(f.color)
  }

  datatype Alert = Alert(title: string, message: string)

  const FillOutAlert := Alert("Error", "Please fill out all fields")
  const SuccessAlert := Alert("Success", "Car added successfully!")
  const FailureAlert := Alert("Error", "Failed to add the car")

  /** The car built from a complete form: the form's five fields, the
      signed-in user, `photoUrl ?? ''`, and the date part of the ISO
      timestamp `now` (what precedes its first 'T'). */
  function NewCar(f: CarForm, id: string, userId: string, now: string): (c: Car)
    requires IsComplete(f)
    ensures c.id == id && c.userId == userId
    ensures Some(c.brand) == f.brand && Some(c.model) == f.model && Some(c.makeYear) == f.makeYear
    ensures Some(c.gearbox) == f.gearbox && Some(c.color) == f.color
    ensures f.photoUrl.None? ==> c.photoUrl == ""
    ensures f.photoUrl.Some? ==> c.photoUrl == f.photoUrl.value
    ensures 'T' !in c.datePosted && |c.datePosted| <= |now| && c.datePosted == now[..|c.datePosted|]
  {
    Car(id, userId, f.brand.value, f.model.value, f.gearbox.value, f.color.value, f.makeYear.value,
        BeforeFirstT(now), f.photoUrl.GetOr(""))
  }

  /** For an ISO timestamp `YYYY-MM-DDThh:mm:ss.sssZ` the posting date is
      its first ten characters. */
  lemma DatePostedOfIsoTimestamp(now: string)
    requires |now| > 10 && now[10] == 'T' && 'T' !in now[..10]
    ensures BeforeFirstT(now) == now[..10]
  {
    var r := BeforeFirstT(now);
    assert forall i :: 0 <= i < 10 ==> now[..10][i] == now[i];
  }

  /** What a submission led to: the car handed to `addNewCar` (if any), the
      alerts shown in order, and whether the screen navigated back. */
  datatype Outcome = Outcome(submitted: Option<Car>, alerts: seq<Alert>, wentBack: bool)

  /** The `try { await addNewCar(car); ... } catch { ... }` step, where
      `accepted` says whether `addNewCar` resolved. */
  function Submit(c: Car, accepted: bool): (r: Outcome)
    ensures r.submitted == Some(c)
    ensures r.wentBack <==> accepted
    ensures r.alerts == [if accepted then SuccessAlert else FailureAlert]
  {
    if accepted then Outcome(Some(c), [SuccessAlert], true) else Outcome(Some(c), [FailureAlert], false)
  }

  function HasBrand(brand: Option<string>): SupportedCar -> bool
  {
    (b: SupportedCar) => Some(b.brand) == brand
  }

  /** `catalogue?.find(b => b.brand === brand)` */
  function FindBrand(catalogue: Option<seq<SupportedCar>>, brand: Option<string>): (r: Option<SupportedCar>)
    ensures r.None? <==> catalogue.None? || forall i :: 0 <= i < |catalogue.value| ==> Some(catalogue.value[i].brand) != brand
    ensures r.Some? ==> catalogue.Some? && Some(r.value.brand) == brand
    ensures r.Some? ==> exists i :: 0 <= i < |catalogue.value| && catalogue.value[i] == r.value &&
                                    forall j :: 0 <= j < i ==> Some(catalogue.value[j].brand) != brand
  {
    if catalogue.None? then None
    else
      var r := Seqs.Find(catalogue.value, HasBrand(brand));
      assert r.None? <==> forall i :: 0 <= i < |catalogue.value| ==> !HasBrand(brand)(catalogue.value[i]);
      r
  }

  function HasName(name: Option<string>): SupportedCarModel -> bool
  {
    (m: SupportedCarModel) => Some(m.name) == name
  }

  /** `models.find(m => m.name === name)` */
  function FindModel(models: seq<SupportedCarModel>, name: Option<string>): (r: Option<SupportedCarModel>)
    ensures r.None? <==> forall i :: 0 <= i < |models| ==> Some(models[i].name) != name
    ensures r.Some? ==> r.value in models && Some(r.value.name) == name
  {
    var r := Seqs.Find(models, HasName(name));
    assert r.None? <==> forall i :: 0 <= i < |models| ==> !HasName(name)(models[i]);
    r
  }

  function ModelName(m: SupportedCarModel): string { m.name }

  /** The model names the catalogue lists for a brand, `[]` for an unknown
      brand or a missing catalogue. */
  function BrandModelNames(catalogue: Option<seq<SupportedCar>>, brand: Option<string>): (r: seq<string>)
    ensures FindBrand(catalogue, brand).None? ==> r == []
    ensures FindBrand(catalogue, brand).Some? ==>
      forall n :: n in r <==> exists m :: m in FindBrand(catalogue, brand).value.models && m.name == n
  {
    var b := FindBrand(catalogue, brand);
    if b.None? then []
    else
      var names := Seqs.Map(b.value.models, ModelName);
      assert forall n :: n in names <==> exists m :: m in b.value.models && m.name == n by {
        forall n ensures n in names <==> exists m :: m in b.value.models && m.name == n {
          if n in names {
            var i :| 0 <= i < |names| && names[i] == n;
            assert b.value.models[i] in b.value.models;
          }
          if exists m :: m in b.value.models && m.name == n {
            var m :| m in b.value.models && m.name == n;
            var i :| 0 <= i < |b.value.models| && b.value.models[i] == m;
            assert names[i] == n;
          }
        }
      }
      names
  }
}
