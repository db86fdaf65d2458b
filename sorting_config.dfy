/**
 * The sort controls of src/viewmodel/useCarSortingConfig.ts over the sort
 * state of src/viewmodel/useCarDataHandling.ts: a direction toggle, a reset,
 * the "is default" test, and the three config items with their titles and
 * hidden flags.
 */
module SortingConfig {

  import opened Wrappers
  import opened CarSortKeys
  import LegacyCarDataHandling

  function SortFieldName(s: SortField): string
  {
    match s
    case DatePosted => "datePosted"
    case MakeYear => "makeYear"
  }

  /** `sortBy === null && sortDirection === 'desc'` */
  predicate IsSortingDefault(sortBy: Option<SortField>, dir: SortDirection)
  {
    sortBy == None && dir == Desc
  }

  /** `Sort by: ${sortBy ?? 'None'}` */
  function SortTitle(sortBy: Option<SortField>): (t: string)
    ensures t == "Sort by: None" <==> sortBy.None?
  {
    var shown := if sortBy.None? then "None" else SortFieldName(sortBy.value);
    assert sortBy.Some? ==> shown[0] != 'N';
    "Sort by: " + shown
  }

  function DirectionTitle(dir: SortDirection): string
  {
    "Direction: " + if dir == Asc then "Ascending" else "Descending"
  }

  /** A picker entry: what is shown and the sort field it selects. */
  datatype SortOption = SortOption(caption: string, value: Option<SortField>)

  /** The sort-by picker: none, date posted, make year. */
  const SortByOptions := [SortOption("None", None), SortOption("Date Posted", Some(DatePosted)),
                          SortOption("Make Year", Some(MakeYear))]

  datatype ConfigItem = ConfigItem(title: string, hidden: bool)

  /** The three items: the sort-by picker, the direction toggle (hidden
      while nothing is sorted) and the reset (hidden while sorting is at its
      default). */
  function SortingConfigs(sortBy: Option<SortField>, dir: SortDirection): (r: seq<ConfigItem>)
    ensures |r| == 3
    ensures !r[0].hidden && r[0].title == SortTitle(sortBy)
    ensures r[1].title == DirectionTitle(dir) && (r[1].hidden <==> sortBy.None?)
    ensures r[2].title == "Reset Sorting" && (r[2].hidden <==> IsSortingDefault(sortBy, dir))
  {
    [ConfigItem(SortTitle(sortBy), false),
     ConfigItem(DirectionTitle(dir), sortBy == None),
     ConfigItem("Reset Sorting", IsSortingDefault(sortBy, dir))]
  }

  /** Every field the picker offers has an entry of its own, and the
      entries select different fields. */
  lemma SortByOptionsCoverFields(s: Option<SortField>)
    ensures exists i :: 0 <= i < |SortByOptions| && SortByOptions[i].value == s
    ensures forall i, j :: 0 <= i < j < |SortByOptions| ==> SortByOptions[i].value != SortByOptions[j].value
  {
    match s
    case None => assert SortByOptions[0].value == s;
    case Some(DatePosted) => assert SortByOptions[1].value == s;
    case Some(MakeYear) => assert SortByOptions[2].value == s;
  }

  /** `toggleSortDirection`: the other direction, the field kept. */
  method ToggleSortDirection(state: LegacyCarDataHandling.DataHandlingState)
    modifies state
    ensures state.sortDirection == Flipped(old(state.sortDirection))
    ensures state.sortBy == old(state.sortBy)
  {
    state.SetSortDirection(if state.sortDirection == Asc then Desc else Asc);
  }

  /** `resetSorting`: no field and 'desc', which is the default; the reset
      item then hides itself. */
  method ResetSorting(state: LegacyCarDataHandling.DataHandlingState)
    modifies state
    ensures state.sortBy == None && state.sortDirection == Desc
    ensures IsSortingDefault(state.sortBy, state.sortDirection)
    ensures SortingConfigs(state.sortBy, state.sortDirection)[2].hidden
  {
    state.SetSortBy(None);
    state.SetSortDirection(Desc);
  }

  /** Toggling twice restores the direction. */
  method ToggleTwiceRestores(state: LegacyCarDataHandling.DataHandlingState)
    modifies state
    ensures state.sortDirection == old(state.sortDirection) && state.sortBy == old(state.sortBy)
  {
    ToggleSortDirection(state);
    ToggleSortDirection(state);
    FlippedTwice(old(state.sortDirection));
  }
}
