/**
 * The sort controls of
 * src/views/screens/DataListScreen/components/SortingHeader.tsx over the
 * state of the sorting hook: a "Sort by" picker that maps its values to sort
 * keys, and a direction button labelled 'Oldest'/'Newest' shown only while a
 * key is chosen.
 */
module SortingHeader {

  import opened Wrappers
  import opened CarEntity
  import opened JsText
  import opened CarSortKeys
  import CarSorting

  const MakeYearKey := CarKey(MakeYearField)
  const DatePostedKey := CarKey(DatePostedField)

  /** `sortByLabel`: the two offered keys by name, anything else 'Relevance'. */
  function SortByLabel(sortBy: Option<SortKey>): (t: string)
    ensures t == "Relevance" <==> sortBy != Some(MakeYearKey) && sortBy != Some(DatePostedKey)
  {
    if sortBy == Some(MakeYearKey) then "Make Year"
    else if sortBy == Some(DatePostedKey) then "Date Posted"
    else "Relevance"
  }

  /** `mapSortByValue`: 'makeYear' and 'datePosted' name their keys, every
      other value (among them 'Relevance') means no sorting. */
  function MapSortByValue(value: string): (k: Option<SortKey>)
    ensures k.Some? <==> value == "makeYear" || value == "datePosted"
    ensures k.Some? ==> k.value.CarKey? && FieldName(k.value.field) == value
  {
    if value == "makeYear" then Some(MakeYearKey)
    else if value == "datePosted" then Some(DatePostedKey)
    else None
  }

  /** A picker entry: its label and the value it delivers. */
  datatype PickerOption = PickerOption(caption: string, value: string)

  const SortByOptions := [PickerOption("Relevance", "Relevance"), PickerOption("Make Year", "makeYear"),
                          PickerOption("Date Posted", "datePosted")]

  /** Choosing an entry makes the button read `Sort by <its label>`. */
  lemma PickerRoundTrip(i: int)
    requires 0 <= i < |SortByOptions|
    ensures SortByLabel(MapSortByValue(SortByOptions[i].value)) == SortByOptions[i].caption
  {
  }

  /** The labels tell the three kinds of state apart. */
  lemma LabelsDistinguishKeys(a: Option<SortKey>, b: Option<SortKey>)
    requires SortByLabel(a) == SortByLabel(b)
    ensures SortByLabel(a) != "Relevance" ==> a == b
  {
    assert "Make Year" != "Date Posted";
  }

  /** `value?.toString() || 'Relevance'`: a missing or empty value is taken
      as 'Relevance'. */
  function PickedValue(value: Option<string>): (v: string)
    ensures Truthy(v)
    ensures TruthyText(value) ==> v == value.value
  {
    if TruthyText(value) then value.value else "Relevance"
  }

  /** `onValueChange` of the picker: the key the value maps to, and choosing
      'Relevance' itself also sets the direction back to 'desc'. */
  method OnSortByChange(state: CarSorting.SortingState, value: Option<string>)
    modifies state
    ensures state.sortBy == MapSortByValue(PickedValue(value))
    ensures state.sortDirection == if value == Some("Relevance") then Desc else old(state.sortDirection)
  {
    state.SetSortBy(MapSortByValue(PickedValue(value)));
    if value == Some("Relevance") {
      state.SetSortDirection(Desc);
    }
  }

  /** `sorts.sortBy && ...`: the direction button exists only while a key
      is chosen (every key name is non-empty, so truthy). */
  predicate DirectionButtonShown(sortBy: Option<SortKey>)
  {
    sortBy.Some?
  }

  function DirectionLabel(dir: SortDirection): (t: string)
    ensures t == "Oldest" <==> dir == Asc
  {
    if dir == Asc then "Oldest" else "Newest"
  }

  /** Pressing the direction button switches to the other direction. */
  method PressDirection(state: CarSorting.SortingState)
    modifies state
    ensures state.sortDirection == Flipped(old(state.sortDirection))
    ensures state.sortBy == old(state.sortBy)
  {
    state.SetSortDirection(if state.sortDirection == Asc then Desc else Asc);
  }

  /** A press always changes the label: 'Newest' becomes 'Oldest' and back. */
  lemma PressChangesLabel(dir: SortDirection)
    ensures DirectionLabel(Flipped(dir)) != DirectionLabel(dir)
    ensures DirectionLabel(dir) == "Newest" ==> Flipped(dir) == Asc
  {
  }

  /** Choosing 'Relevance' removes the direction button and leaves the state
      at the hook's initial one. */
  method ChooseRelevance(state: CarSorting.SortingState)
    modifies state
    ensures state.sortBy == None && state.sortDirection == Desc
    ensures !DirectionButtonShown(state.sortBy)
  {
    OnSortByChange(state, Some("Relevance"));
  }
}
