/**
 * The filter controls of src/viewmodel/useCarFilterConfig.ts over the
 * nullable filter state: a reset item, and one picker item per filter whose
 * title shows the current value or 'All' and whose options start with an
 * "All ..." entry of value `null`.
 */
module FilterConfig {

  import opened Wrappers
  import opened JsText
  import opened CarEntity
  import opened CarOptions
  import opened NullableFilters
  import Seqs

  /** `isResetDisabled`: none of the six attribute filters is truthy. */
  predicate IsResetDisabled(f: FilterValues)
  {
    !TruthyText(f.brand) && !TruthyText(f.model) && !TruthyNumber(f.yearFrom) &&
    !TruthyNumber(f.yearTo) && !TruthyText(f.gearbox) && !TruthyText(f.color)
  }

  /** `resetFilters`: the six attribute filters become `null`; whether only
      the user's cars are shown is left as it was. Afterwards the reset item
      is disabled. */
  method ResetFilters(state: FilterState)
    modifies state
    ensures state.Snapshot() == NoFilters.(showOnlyUserCars := old(state.showOnlyUserCars))
    ensures IsResetDisabled(state.Snapshot())
  {
    state.SetFilterBrand(None);
    state.SetFilterModel(None);
    state.SetFilterYearFrom(None);
    state.SetFilterYearTo(None);
    state.SetFilterGearbox(None);
    state.SetFilterColor(None);
  }

  /** While the reset item is disabled the truthiness filters keep what the
      reset state keeps: resetting would change nothing shown. */
  lemma DisabledResetChangesNothing(cars: Option<seq<Car>>, f: FilterValues, userId: Option<string>)
    requires IsResetDisabled(f)
    ensures TruthyFiltered(cars, f, userId) == TruthyFiltered(cars, NoFilters.(showOnlyUserCars := f.showOnlyUserCars), userId)
  {
    Seqs.FilterSame(CarsOrEmpty(cars), TruthyWith(f, userId), TruthyWith(NoFilters.(showOnlyUserCars := f.showOnlyUserCars), userId));
  }

  /** `${name}: ${value ?? 'All'}` */
  function Title(name: string, value: Option<string>): (t: string)
    ensures value.None? ==> t == name + ": All"
    ensures value.Some? ==> t == name + ": " + value.value
  {
    name + ": " + value.GetOr("All")
  }

  /** `value?.toString()` for the year filters. */
  function YearText(year: Option<int>): (t: Option<string>)
    ensures t.None? <==> year.None?
    ensures year.Some? ==> ParseInt(t.value) == year
  {
    if year.None? then None else (ParseIntToString(year.value); Some(IntToString(year.value)))
  }

  /** A picker entry: its label and the value it selects. */
  datatype PickerOption = PickerOption(caption: string, value: Option<string>)

  function AsOption(v: string): PickerOption
  {
    PickerOption(v, Some(v))
  }

  /** `[{label: allLabel, value: null}, ...values.map(v => ({label: v, value: v}))]` */
  function ModalOptions(allLabel: string, values: seq<string>): (r: seq<PickerOption>)
    ensures |r| == |values| + 1
    ensures r[0] == PickerOption(allLabel, None)
    ensures forall i :: 0 <= i < |values| ==> r[i + 1] == PickerOption(values[i], Some(values[i]))
  {
    [PickerOption(allLabel, None)] + Seqs.Map(values, AsOption)
  }

  /** The year pickers offer 'All Years' and then every year as its text. */
  function YearModalOptions(years: seq<int>): (r: seq<PickerOption>)
    ensures |r| == |years| + 1 && r[0] == PickerOption("All Years", None)
    ensures forall i :: 0 <= i < |years| ==> r[i + 1].value == Some(IntToString(years[i]))
  {
    ModalOptions("All Years", Seqs.Map(years, IntToString))
  }

  /** A value a year picker can deliver: `null` or the text of a year. */
  predicate IsYearValue(value: Option<string>)
  {
    value.None? || ParseInt(value.value).Some?
  }

  /** `Number(value)` on what a year picker delivers, as written: `null`
      becomes 0. */
  function Number(value: Option<string>): (n: int)
    requires IsYearValue(value)
    ensures value.None? ==> n == 0
    ensures value.Some? ==> ParseInt(value.value) == Some(n)
  {
    if value.None? then 0 else ParseInt(value.value).value
  }

  /** As written, choosing 'All Years' stores 0 rather than `null`: the title
      reads "Year To: 0", the filters count as active, and under the
      `!== null` checks of src/viewmodel/useCarFilters.ts a 'Year To' of 0
      hides every car made after year 0. */
  lemma AllYearsSelectsZero(f: FilterValues, userId: Option<string>, c: Car)
    requires c.makeYear > 0
    ensures var g := f.(yearTo := Some(Number(None)));
      Title("Year To", YearText(g.yearTo)) == "Year To: 0" &&
      AreFiltersActive(g) &&
      !StrictPasses(g, userId, c)
  {
    assert IntToString(0) == "0";
  }

  /** The intended reading of a year picker's value: `null` clears the
      filter, a year's text selects that year. */
  function YearSelection(value: Option<string>): (r: Option<int>)
    requires IsYearValue(value)
    ensures r.None? <==> value.None?
    ensures value.Some? ==> r == ParseInt(value.value)
  {
    if value.None? then None else ParseInt(value.value)
  }

  /** Choosing an entry of a year picker sets the filter to the year it
      shows, or clears it for 'All Years'; the title then shows the entry's
      year, or 'All'. */
  lemma YearSelectionRoundTrip(years: seq<int>, i: int, name: string)
    requires 0 <= i < |years| + 1
    ensures var o := YearModalOptions(years)[i];
      IsYearValue(o.value) &&
      YearSelection(o.value) == (if i == 0 then None else Some(years[i - 1])) &&
      Title(name, YearText(YearSelection(o.value))) == (if i == 0 then name + ": All" else name + ": " + IntToString(years[i - 1]))
  {
    if i > 0 {
      ParseIntToString(years[i - 1]);
    }
  }

  /** `onValueChange` of 'Year From' as written: the picked value goes
      through `Number`, so 'All Years' stores 0. */
  method SelectYearFromAsWritten(state: FilterState, value: Option<string>)
    requires IsYearValue(value)
    modifies state
    ensures state.Snapshot() == old(state.Snapshot()).(yearFrom := Some(Number(value)))
  {
    state.SetFilterYearFrom(Some(Number(value)));
  }

  /** `onValueChange` of 'Year To' as written: 'All Years' stores 0. */
  method SelectYearToAsWritten(state: FilterState, value: Option<string>)
    requires IsYearValue(value)
    modifies state
    ensures state.Snapshot() == old(state.Snapshot()).(yearTo := Some(Number(value)))
  {
    state.SetFilterYearTo(Some(Number(value)));
  }

  /** The handlers as written and as intended store the same year for every
      year text, and differ exactly on 'All Years', where the written one
      stores 0 instead of clearing the bound. */
  lemma WrittenAndIntendedDifferOnAllYears(value: Option<string>)
    requires IsYearValue(value)
    ensures value.Some? ==> Some(Number(value)) == YearSelection(value)
    ensures value.None? ==> Some(Number(value)) == Some(0) && YearSelection(value) == None
  {
  }

  /** `onValueChange` of 'Year From', with `null` clearing the filter. */
  method SelectYearFrom(state: FilterState, value: Option<string>)
    requires IsYearValue(value)
    modifies state
    ensures state.Snapshot() == old(state.Snapshot()).(yearFrom := YearSelection(value))
  {
    state.SetFilterYearFrom(YearSelection(value));
  }

  /** `onValueChange` of 'Year To', with `null` clearing the filter. */
  method SelectYearTo(state: FilterState, value: Option<string>)
    requires IsYearValue(value)
    modifies state
    ensures state.Snapshot() == old(state.Snapshot()).(yearTo := YearSelection(value))
  {
    state.SetFilterYearTo(YearSelection(value));
  }

  /** One entry of the returned list: its title, whether it is disabled,
      and for a picker its options and the selected value. */
  datatype ConfigItem = ConfigItem(title: string, disabled: bool, options: seq<PickerOption>, selected: Option<string>)

  function Picker(name: string, options: seq<PickerOption>, selected: Option<string>): ConfigItem
  {
    ConfigItem(Title(name, selected), false, options, selected)
  }

  /** The seven items: reset, brand, model, gearbox, year from, year to and
      color. */
  function FilterConfigs(o: FilterOptions, f: FilterValues): (r: seq<ConfigItem>)
    ensures |r| == 7
  {
    [ConfigItem("Reset Filters", IsResetDisabled(f), [], None),
     Picker("Brand", ModalOptions("All Brands", o.brandOptions), f.brand),
     Picker("Model", ModalOptions("All Models", o.modelOptions), f.model),
     Picker("Gearbox", ModalOptions("All Gearboxes", o.gearboxOptions), f.gearbox),
     Picker("Year From", YearModalOptions(o.yearOptions), YearText(f.yearFrom)),
     Picker("Year To", YearModalOptions(o.yearOptions), YearText(f.yearTo)),
     Picker("Color", ModalOptions("All Colors", o.colorOptions), f.color)]
  }

  /** The reset item comes first and is disabled exactly when no filter is
      set; every other item is an enabled picker titled by its current value
      and offering its "All ..." option, of value `null`, first. */
  lemma FilterConfigsMeaning(o: FilterOptions, f: FilterValues)
    ensures var r := FilterConfigs(o, f);
      r[0].title == "Reset Filters" && (r[0].disabled <==> IsResetDisabled(f)) &&
      r[1].title == Title("Brand", f.brand) && r[1].options == ModalOptions("All Brands", o.brandOptions) &&
      r[2].title == Title("Model", f.model) && r[2].options == ModalOptions("All Models", o.modelOptions) &&
      r[3].title == Title("Gearbox", f.gearbox) && r[3].options == ModalOptions("All Gearboxes", o.gearboxOptions) &&
      r[4].title == Title("Year From", YearText(f.yearFrom)) && r[4].options == YearModalOptions(o.yearOptions) &&
      r[5].title == Title("Year To", YearText(f.yearTo)) && r[5].options == YearModalOptions(o.yearOptions) &&
      r[6].title == Title("Color", f.color) && r[6].options == ModalOptions("All Colors", o.colorOptions) &&
      forall k :: 1 <= k < 7 ==> !r[k].disabled && r[k].options[0].value.None?
  {
    var r := FilterConfigs(o, f);
    forall k | 1 <= k < 7 ensures !r[k].disabled && r[k].options[0].value.None? {
      assert r[k].options[0] == PickerOption(r[k].options[0].caption, None);
    }
  }
}
