/**
 * The filter controls of
 * src/views/screens/DataListScreen/components/FiltersHeader.tsx over the
 * filter hook of src/viewmodels/handling/viewCars/useCarFilters.ts: a reset
 * button, a "mine only" toggle, and one picker button per filter whose
 * title is the current value, or "All <title>" while the filter is falsy.
 */
module FiltersHeader {

  import opened Wrappers
  import opened JsText
  import opened CarFilters
  import Seqs

  /** A value a picker button shows: `string | number | null`. */
  datatype Shown = TextValue(text: string) | NumberValue(number: int) | Nothing

  predicate TruthyShown(v: Shown)
  {
    match v
    case TextValue(s) => s != ""
    case NumberValue(n) => n != 0
    case Nothing => false
  }

  function ShownYear(year: Option<int>): Shown
  {
    if year.None? then Nothing else NumberValue(year.value)
  }

  /** `safelyConvertValueToString`: `null` becomes '', anything else its
      `toString()`. */
  function SafelyConvertValueToString(v: Shown): (s: string)
    ensures v.Nothing? ==> s == ""
    ensures v.TextValue? ==> s == v.text
    ensures v.NumberValue? ==> ParseInt(s) == Some(v.number)
  {
    match v
    case Nothing => ""
    case TextValue(t) => t
    case NumberValue(n) => ParseIntToString(n); IntToString(n)
  }

  /** The picker button's title: the value while it is truthy, otherwise
      `All ${title}`. */
  function ButtonTitle(title: string, v: Shown): (t: string)
    ensures TruthyShown(v) ==> t == SafelyConvertValueToString(v)
    ensures !TruthyShown(v) ==> t == "All " + title
  {
    if TruthyShown(v) then SafelyConvertValueToString(v) else "All " + title
  }

  /** A picker entry: its label and the text it delivers. */
  datatype PickerOption = PickerOption(caption: string, value: string)

  function SameLabel(v: string): PickerOption
  {
    PickerOption(v, v)
  }

  /** `[{label: `All ${title}`, value: ''}, ...options]` */
  function PickerOptions(title: string, values: seq<string>): (r: seq<PickerOption>)
    ensures |r| == |values| + 1
    ensures r[0] == PickerOption("All " + title, "")
    ensures forall i :: 0 <= i < |values| ==> r[i + 1] == PickerOption(values[i], values[i])
  {
    [PickerOption("All " + title, "")] + Seqs.Map(values, SameLabel)
  }

  function YearPickerOptions(title: string, years: seq<int>): (r: seq<PickerOption>)
    ensures |r| == |years| + 1 && r[0].value == ""
    ensures forall i :: 0 <= i < |years| ==> r[i + 1].value == IntToString(years[i])
  {
    PickerOptions(title, Seqs.Map(years, IntToString))
  }

  /** What a year picker delivers: '' or the text of a year. */
  predicate IsYearText(value: string)
  {
    value == "" || ParseInt(value).Some?
  }

  /** `value ? parseInt(value, 10) : null` */
  function YearOfText(value: string): (r: Option<int>)
    requires IsYearText(value)
    ensures r.None? <==> value == ""
    ensures value != "" ==> r == ParseInt(value)
  {
    if value == "" then None else ParseInt(value)
  }

  /** Choosing an entry of a year picker sets the year it shows, or clears
      the filter for the "All" entry; the button then shows that year (if
      it is truthy), or "All <title>". */
  lemma YearPickerRoundTrip(title: string, years: seq<int>, i: int)
    requires 0 <= i < |years| + 1
    ensures var o := YearPickerOptions(title, years)[i];
      IsYearText(o.value) &&
      YearOfText(o.value) == (if i == 0 then None else Some(years[i - 1])) &&
      ButtonTitle(title, ShownYear(YearOfText(o.value))) ==
        (if i == 0 || years[i - 1] == 0 then "All " + title else IntToString(years[i - 1]))
  {
    if i > 0 {
      ParseIntToString(years[i - 1]);
    }
  }

  /** Choosing an entry of a text picker sets its value, and the "All"
      entry sets '', the filter's unset value; the button shows the value or
      "All <title>". */
  lemma TextPickerRoundTrip(title: string, values: seq<string>, i: int)
    requires 0 <= i < |values| + 1
    ensures var o := PickerOptions(title, values)[i];
      o.value == (if i == 0 then "" else values[i - 1]) &&
      ButtonTitle(title, TextValue(o.value)) == (if o.value == "" then "All " + title else o.value)
  {
  }

  /** The 'From Year' picker's `onValueChange`. */
  method OnYearFromChange(state: FilterState, value: string)
    requires IsYearText(value)
    modifies state
    ensures state.Snapshot() == old(state.Snapshot()).(yearFrom := YearOfText(value))
  {
    state.SetFilterYearFrom(YearOfText(value));
  }

  /** The 'To Year' picker's `onValueChange`. */
  method OnYearToChange(state: FilterState, value: string)
    requires IsYearText(value)
    modifies state
    ensures state.Snapshot() == old(state.Snapshot()).(yearTo := YearOfText(value))
  {
    state.SetFilterYearTo(YearOfText(value));
  }

  /** The toggle flips whether only the user's cars are shown. */
  method ToggleUserCars(state: FilterState)
    modifies state
    ensures state.Snapshot() == old(state.Snapshot()).(showOnlyUserCars := !old(state.showOnlyUserCars))
  {
    state.SetShowOnlyUserCars(!state.showOnlyUserCars);
  }

  function ResetTitle(areFiltersActive: bool): string
  {
    if areFiltersActive then "Reset Filters" else "No Filters Set"
  }

  function UserCarsTitle(showOnlyUserCars: bool): string
  {
    if showOnlyUserCars then "My Cars Only" else "All Cars"
  }

  /** The button titles in order: reset, toggle, brand, model, from year,
      to year, gearbox, color. */
  function HeaderTitles(f: Filters, areFiltersActive: bool): (r: seq<string>)
    ensures |r| == 8
    ensures r[0] == "Reset Filters" <==> areFiltersActive
    ensures r[1] == "My Cars Only" <==> f.showOnlyUserCars
    ensures r[2] == ButtonTitle("Brand", TextValue(f.brand))
    ensures r[3] == ButtonTitle("Model", TextValue(f.model))
    ensures r[4] == ButtonTitle("From Year", ShownYear(f.yearFrom))
    ensures r[5] == ButtonTitle("To Year", ShownYear(f.yearTo))
    ensures r[6] == ButtonTitle("Gearbox", TextValue(f.gearbox))
    ensures r[7] == ButtonTitle("Color", TextValue(f.color))
  {
    [ResetTitle(areFiltersActive), UserCarsTitle(f.showOnlyUserCars),
     ButtonTitle("Brand", TextValue(f.brand)), ButtonTitle("Model", TextValue(f.model)),
     ButtonTitle("From Year", ShownYear(f.yearFrom)), ButtonTitle("To Year", ShownYear(f.yearTo)),
     ButtonTitle("Gearbox", TextValue(f.gearbox)), ButtonTitle("Color", TextValue(f.color))]
  }

  /** With no filter set every picker shows "All ...". */
  lemma UnsetTitles(active: bool)
    ensures HeaderTitles(NoFilters, active) ==
      [ResetTitle(active), "All Cars", "All Brand", "All Model", "All From Year",
       "All To Year", "All Gearbox", "All Color"]
  {
    assert ButtonTitle("Brand", TextValue("")) == "All Brand";
    assert ButtonTitle("Model", TextValue("")) == "All Model";
    assert ButtonTitle("From Year", Nothing) == "All From Year";
    assert ButtonTitle("To Year", Nothing) == "All To Year";
    assert ButtonTitle("Gearbox", TextValue("")) == "All Gearbox";
    assert ButtonTitle("Color", TextValue("")) == "All Color";
  }

  /** After a reset no filter is active, so the reset button reads 'No
      Filters Set' (and is disabled), and every picker shows "All ...". */
  method ResetShowsNoFilters(state: FilterState) returns (titles: seq<string>)
    modifies state
    ensures titles == ["No Filters Set", "All Cars", "All Brand", "All Model", "All From Year",
                       "All To Year", "All Gearbox", "All Color"]
  {
    state.ResetFilters();
    titles := HeaderTitles(state.Snapshot(), AreFiltersActive(state.Snapshot()));
    UnsetTitles(false);
  }

  /** The rendering case of the component's tests: unset filters, with the
      hook reporting active filters. */
  lemma TestTitles()
    ensures HeaderTitles(NoFilters, true) ==
      ["Reset Filters", "All Cars", "All Brand", "All Model", "All From Year",
       "All To Year", "All Gearbox", "All Color"]
  {
    UnsetTitles(true);
  }
}
