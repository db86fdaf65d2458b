/**
 * `validateCarForm` of src/viewmodel/handling/addCar/useCarValidation.ts:
 * the form is valid when its five required fields are truthy, and an error
 * alert is shown exactly when it is not.
 */
module CarValidation {

  import opened Wrappers
  import opened CarEntity
  import opened CarForms

  /** The verdict and the alerts shown while reaching it. */
  datatype Validation = Validation(valid: bool, alerts: seq<Alert>)

  function ValidateCarForm(f: CarForm): (r: Validation)
    ensures r.valid <==> IsComplete(f)
    ensures r.alerts == (if r.valid then [] else [FillOutAlert])
  {
    if !IsComplete(f) then Validation(false, [FillOutAlert]) else Validation(true, [])
  }

  /** The photo plays no part in validity. */
  lemma PhotoIsOptional(f: CarForm, p: Option<string>)
    ensures ValidateCarForm(f.(photoUrl := p)) == ValidateCarForm(f)
  {
  }

  /** Each required field, left `null`, makes the form invalid; so do an
      empty text and the year 0, which are falsy. */
  lemma MissingFieldInvalid(f: CarForm)
    ensures !ValidateCarForm(f.(brand := None)).valid && !ValidateCarForm(f.(brand := Some(""))).valid
    ensures !ValidateCarForm(f.(model := None)).valid && !ValidateCarForm(f.(model := Some(""))).valid
    ensures !ValidateCarForm(f.(makeYear := None)).valid && !ValidateCarForm(f.(makeYear := Some(0))).valid
    ensures !ValidateCarForm(f.(gearbox := None)).valid
    ensures !ValidateCarForm(f.(color := None)).valid && !ValidateCarForm(f.(color := Some(""))).valid
  {
  }

  /** The empty form is invalid, and filling the five fields with truthy
      values makes any form valid. */
  lemma FilledFormValid(f: CarForm, brand: string, model: string, year: int, g: Gearbox, color: string)
    requires brand != "" && model != "" && year != 0 && color != ""
    ensures ValidateCarForm(f.(brand := Some(brand), model := Some(model), makeYear := Some(year),
                               gearbox := Some(g), color := Some(color))).valid
    ensures !ValidateCarForm(EmptyForm).valid
  {
  }

  const TestForm := CarForm(Some("Toyota"), Some("Corolla"), Some(2020), Some(Automatic), Some("Blue"),
                            Some("http://example.com/photo.jpg"))

  /** The cases of src/viewmodel/handling/addCar/__tests__/useCarValidation.test.ts. */
  lemma ValidationTestCases()
    ensures ValidateCarForm(TestForm) == Validation(true, [])
    ensures ValidateCarForm(TestForm.(brand := None)) == Validation(false, [FillOutAlert])
    ensures ValidateCarForm(TestForm.(makeYear := None)) == Validation(false, [FillOutAlert])
    ensures ValidateCarForm(TestForm.(gearbox := None)) == Validation(false, [FillOutAlert])
    ensures ValidateCarForm(TestForm.(color := None)) == Validation(false, [FillOutAlert])
  {
  }
}
