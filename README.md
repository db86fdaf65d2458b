# Car shop listing logic in Dafny

This project models the listing logic of a React Native car shop app. Users browse posted cars, narrow them with filters, a free-text search and a sort order, and post cars of their own through a form. The hooks come in three generations (`src/viewmodel/`, `src/viewmodel/handling/` and `src/viewmodels/handling/`), and each generation is modelled on its own, since they differ in small ways that matter:

- how they test filters: by truthiness or by `!== null`;
- which comparator they sort with: three-way or two-way;
- how they treat a model without an image.

The project also models three offline Node scripts. They rewrite `db.json` with image URLs for the posted cars and for the catalogue of supported brands and models.

The shared pieces:

- `CarEntity` holds the entities. `Car` is a posted car; `SupportedCar` and `SupportedCarModel` form the catalogue; `CarField` lists the keys of a car.
- `JsText`, `Seqs` and `JsSort` model the JavaScript built-ins the hooks rely on:
  - truthiness, `trim`, `toLowerCase`, `split(/\s+/)`, `includes`;
  - number-to-text and text-to-number, and string order;
  - `filter`, `find` and `[...new Set(...)]`;
  - `Array.prototype.sort`, which is stable.
- `CarOptions` and `YearOptions` compute the lists the pickers offer.

React state becomes a class whose fields are the `useState` values. Each setter is a method. Each effect is a method that is proved equal to a pure function of the state before it ran. Alerts, the value passed to `addCar` and `navigation.goBack()` come back as an `Outcome` value.

The following are parameters of the model rather than things it computes:

- the clock (`new Date().toISOString()`, `getFullYear()`);
- the generated id;
- whether the service accepted a new car;
- the Unsplash image search, which becomes a function from a query to an optional URL.

The array loops of the scripts stay loops over `array`s. Each is proved equal to a pure function over the original sequence, and lemmas give the meaning of that function.

## Model

| member | source | states |
|---|---|---|
| CarFilters.AreFiltersActive | src/viewmodels/handling/viewCars/useCarFilters.ts:22-40 | filters are active exactly when the state differs from the initial one (no text filter, no year bound, all cars) |
| CarFilters.FilteredCars | src/viewmodels/handling/viewCars/useCarFilters.ts:82-108 | the result keeps the loaded cars in order, and a car is in it exactly when it is loaded and passes every truthy filter check; unloaded cars give `[]` |
| CarFilters.FilteredCarsCount | src/viewmodels/handling/viewCars/useCarFilters.ts:82-108 | a passing car appears as often as it was loaded, any other car not at all |
| CarFilters.ResetUnavailableModel | src/viewmodels/handling/viewCars/useCarFilters.ts:76-80 | only the model is ever cleared; afterwards the model is empty or offered for the brand; the state is left alone exactly when the model was empty or offered |
| CarFilters.ResetUnavailableModelIdempotent | src/viewmodels/handling/viewCars/useCarFilters.ts:76-80 | running the model-reset effect a second time changes nothing |
| CarFilters.NoFiltersKeepAll | src/viewmodels/handling/viewCars/useCarFilters.ts:82-108 | with the initial filters every loaded car is listed, in order |
| CarFilters.NotLoadedFiltersToNothing | src/viewmodels/handling/viewCars/useCarFilters.ts:82-107 | cars that are not loaded filter to the empty list (`?? []`) |
| CarFilters.YearBoundsInclusive | src/viewmodels/handling/viewCars/useCarFilters.ts:94-99 | with both year bounds set and non-zero, a passing car lies within them inclusively, and a car within them is not rejected by them |
| CarFilters.ZeroYearIsNoBound | src/viewmodels/handling/viewCars/useCarFilters.ts:94-99 | a year bound of 0 is falsy and filters exactly like no bound |
| CarFilters.OwnershipNeedsUser | src/viewmodels/handling/viewCars/useCarFilters.ts:85-87 | without a truthy user id, "only my cars" changes nothing |
| CarFilters.OwnershipKeepsOwnCars | src/viewmodels/handling/viewCars/useCarFilters.ts:85-87 | with a user id and "only my cars", every listed car belongs to that user |
| CarFilters.ClearingBrandWidens | src/viewmodels/handling/viewCars/useCarFilters.ts:88-90 | clearing the brand filter only adds cars: the old result is an ordered subsequence of the new one |
| CarFilters.FilterOptionsOf | src/viewmodels/handling/viewCars/useCarFilters.ts:52-74 | the brand, gearbox and color options are the distinct values of the cars; the model options follow the chosen brand, and the year options are the last twenty years whatever the cars |
| CarFilters.FilterState.constructor | src/viewmodels/handling/viewCars/useCarFilters.ts:14-20 | the seven `useState` values start as the initial filters |
| CarFilters.FilterState.SetFilterBrand | src/viewmodels/handling/viewCars/useCarFilters.ts:14 | sets the brand and nothing else |
| CarFilters.FilterState.SetFilterModel | src/viewmodels/handling/viewCars/useCarFilters.ts:15 | sets the model and nothing else |
| CarFilters.FilterState.SetFilterYearFrom | src/viewmodels/handling/viewCars/useCarFilters.ts:16 | sets the lower year bound and nothing else |
| CarFilters.FilterState.SetFilterYearTo | src/viewmodels/handling/viewCars/useCarFilters.ts:17 | sets the upper year bound and nothing else |
| CarFilters.FilterState.SetFilterGearbox | src/viewmodels/handling/viewCars/useCarFilters.ts:18 | sets the gearbox and nothing else |
| CarFilters.FilterState.SetFilterColor | src/viewmodels/handling/viewCars/useCarFilters.ts:19 | sets the color and nothing else |
| CarFilters.FilterState.SetShowOnlyUserCars | src/viewmodels/handling/viewCars/useCarFilters.ts:20 | sets "only my cars" and nothing else |
| CarFilters.FilterState.ResetFilters | src/viewmodels/handling/viewCars/useCarFilters.ts:42-50 | every filter goes back to its initial value, after which no filter is active |
| CarFilters.FilterState.ApplyModelReset | src/viewmodels/handling/viewCars/useCarFilters.ts:76-80 | the effect leaves the state that the model-reset function gives |
| CarFilters.FilterState.Filtered | src/viewmodels/handling/viewCars/useCarFilters.ts:82-108 | a car is listed exactly when it is loaded and passes the current filters |
| CarFiltersExamples.ModelsOfMock | src/viewmodel/handling/viewCars/__tests__/useCarFilters.test.ts:6-40 | the three fixture cars offer the models Corolla, Civic and Camry, in that order |
| CarFiltersExamples.FilterByBrand | src/viewmodel/handling/viewCars/__tests__/useCarFilters.test.ts:42-51 | brand Toyota lists two cars and the brand filter reads Toyota |
| CarFiltersExamples.FilterByModel | src/viewmodel/handling/viewCars/__tests__/useCarFilters.test.ts:53-62 | model Corolla lists one car and survives the model-reset effect |
| CarFiltersExamples.FilterByYearRange | src/viewmodel/handling/viewCars/__tests__/useCarFilters.test.ts:64-73 | years 2020 to 2021 list two cars |
| CarFiltersExamples.FilterByGearbox | src/viewmodel/handling/viewCars/__tests__/useCarFilters.test.ts:75-84 | gearbox Automatic lists two cars |
| CarFiltersExamples.ResetAfterBrand | src/viewmodel/handling/viewCars/__tests__/useCarFilters.test.ts:86-96 | after a reset all three cars are listed and the brand is empty |
| CarOptions.Options | src/viewmodels/handling/viewCars/useCarFilters.ts:52-72 | `[...new Set(cars?.map(f) ?? [])]` holds each value of some loaded car, and only those, exactly once |
| CarOptions.OptionsMember | src/viewmodels/handling/viewCars/useCarFilters.ts:52-55 | a value is offered exactly when some loaded car has it |
| CarOptions.OptionsInFirstOccurrenceOrder | src/viewmodels/handling/viewCars/useCarFilters.ts:52-55 | the options appear in the order in which the values first occur among the cars |
| CarOptions.ModelOptions | src/viewmodels/handling/viewCars/useCarFilters.ts:57-62 | the model options hold no duplicates |
| CarOptions.ModelOptionsMeaning | src/viewmodels/handling/viewCars/useCarFilters.ts:57-62 | a model is offered exactly when some loaded car has it and, when a brand is chosen, is of that brand |
| CarOptions.DefaultCompareIsPreorder | src/viewmodel/useCarFilters.ts:56-59 | the comparator-less `sort()` order on numbers (by their texts) is total and transitive |
| CarOptions.YearOptionsOfCars | src/viewmodel/useCarFilters.ts:56-59 | the sorted year options are a permutation of the distinct make years |
| CarOptions.YearOptionsOfCarsMeaning | src/viewmodel/useCarDataHandling.ts:46-49 | each make year of a loaded car is offered exactly once, and the texts of the years are in strictly increasing string order |
| CarOptions.FourDigitTextOrder | src/viewmodel/useCarFilters.ts:56-59 | for four-digit years, string order of the texts is numeric order |
| CarOptions.FourDigitYearOptionsAscending | src/viewmodel/useCarDataHandling.ts:46-49 | when every make year has four digits, the year options are strictly ascending |
| YearOptions.DescendingYears | src/utils/hooks/useYearOptions.ts:6 | `Array.from({length: n}, (_, i) => currentYear - i)` has n entries, the i-th being currentYear - i |
| YearOptions.LastTwentyYears | src/utils/hooks/useYearOptions.ts:3-8 | the hook yields exactly twenty years |
| YearOptions.LastTwentyYearsShape | src/utils/hooks/__tests__/useYearOptions.test.ts:5-12 | the list opens with the current year, closes with the year 19 years earlier, and steps down by one |
| YearOptions.DescendingYearsStrict | src/utils/hooks/useYearOptions.ts:6 | the years strictly descend, so none repeats |
| YearOptions.DescendingYearsMembers | src/utils/hooks/useYearOptions.ts:6 | a year is offered exactly when it lies in the last n years up to the current one |
| NullableFilters.AreFiltersActive | src/viewmodel/handling/useCarFilters.ts:24-33 | filters are active exactly when some filter is non-null or "only my cars" is on |
| NullableFilters.TruthyFiltered | src/viewmodel/handling/useCarFilters.ts:91-103 | a car is kept exactly when it is loaded and passes each truthy filter check; the order is kept |
| NullableFilters.StrictFiltered | src/viewmodel/useCarFilters.ts:61-86 | a car is kept exactly when it is loaded and passes each `!== null` filter check; the order is kept |
| NullableFilters.TruthyFilteredCount | src/viewmodel/handling/useCarFilters.ts:91-103 | under the truthy checks a passing car keeps every copy, any other car none |
| NullableFilters.StrictFilteredCount | src/viewmodel/useCarFilters.ts:61-86 | under the `!== null` checks a passing car keeps every copy, any other car none |
| NullableFilters.ResetUnavailableModel | src/viewmodel/handling/useCarFilters.ts:84-88 | only the model is ever cleared to `null`; afterwards the model is falsy or offered; unchanged exactly when it was falsy or offered |
| NullableFilters.ResetUnavailableModelIdempotent | src/viewmodel/handling/useCarFilters.ts:84-88 | running the model-reset effect twice equals running it once |
| NullableFilters.FalsyValuesAreNoFilter | src/viewmodel/handling/useCarFilters.ts:94-100 | under truthiness checks an empty text or the year 0 filters exactly like `null` |
| NullableFilters.FalsyValuesStillFilter | src/viewmodel/useCarFilters.ts:67-84 | under `!== null` checks an empty brand or color keeps only cars with that empty field, and the year 0 is a real bound |
| NullableFilters.StrictAgreesWithTruthy | src/viewmodel/useCarFilters.ts:64-84 | when every set filter is truthy, the `!== null` hook and the truthiness hooks list the same cars |
| NullableFilters.NoFiltersKeepAll | src/viewmodel/handling/useCarFilters.ts:91-103 | with all filters `null`, both ways of testing list every loaded car in order |
| NullableFilters.OwnershipNeedsUser | src/viewmodel/useCarFilters.ts:64-66 | without a truthy user id, "only my cars" changes neither way of filtering |
| NullableFilters.FilterState.constructor | src/viewmodel/handling/useCarFilters.ts:15-21 | all filters start `null`, with "only my cars" off |
| NullableFilters.FilterState.SetFilterBrand | src/viewmodel/handling/useCarFilters.ts:15 | sets the brand and nothing else |
| NullableFilters.FilterState.SetFilterModel | src/viewmodel/handling/useCarFilters.ts:16 | sets the model and nothing else |
| NullableFilters.FilterState.SetFilterYearFrom | src/viewmodel/handling/useCarFilters.ts:17 | sets the lower year bound and nothing else |
| NullableFilters.FilterState.SetFilterYearTo | src/viewmodel/handling/useCarFilters.ts:18 | sets the upper year bound and nothing else |
| NullableFilters.FilterState.SetFilterGearbox | src/viewmodel/handling/useCarFilters.ts:19 | sets the gearbox and nothing else |
| NullableFilters.FilterState.SetFilterColor | src/viewmodel/handling/useCarFilters.ts:20 | sets the color and nothing else |
| NullableFilters.FilterState.SetShowOnlyUserCars | src/viewmodel/handling/useCarFilters.ts:21 | sets "only my cars" and nothing else |
| NullableFilters.FilterState.ApplyModelReset | src/viewmodel/useCarFilters.ts:40-44 | the effect leaves the state that the model-reset function gives |
| HandlingCarFilters.FilteredCars | src/viewmodel/handling/useCarFilters.ts:91-103 | `filteredCars` keeps the loaded cars in order, and exactly those passing the truthiness checks |
| HandlingCarFilters.FilterOptionsOf | src/viewmodel/handling/useCarFilters.ts:56-81 | the brand, gearbox and color options are the distinct values of the cars; the model options follow the chosen brand, and the year options are the last twenty years |
| HandlingCarFilters.ResetFilters | src/viewmodel/handling/useCarFilters.ts:45-53 | every filter becomes `null` with "only my cars" off, after which no filter is active |
| LegacyCarFilters.FilteredCars | src/viewmodel/useCarFilters.ts:61-94 | the sorted result is a permutation of the `!== null` filtered cars, and a car is in it exactly when it is loaded and passes |
| LegacyCarFilters.UnsortedWithoutField | src/viewmodel/useCarFilters.ts:88-91 | without a sort field the comparator is 0 and the filtered cars keep their order |
| LegacyCarFilters.DistinctKeysOrdered | src/viewmodel/useCarFilters.ts:92-93 | when the filtered cars have distinct values for the sort field, the two-way comparator orders them strictly in the chosen direction |
| LegacyCarFilters.FilterOptionsOf | src/viewmodel/useCarFilters.ts:27-59 | the brand, gearbox and color options are the distinct values of the cars; the model options follow the chosen brand, and the year options are the sorted distinct make years |
| LegacyCarDataHandling.FilteredCars | src/viewmodel/useCarDataHandling.ts:57-93 | the sorted result is a permutation of the truthiness-filtered cars, and a car is in it exactly when it is loaded and passes |
| LegacyCarDataHandling.UnsortedWithoutField | src/viewmodel/useCarDataHandling.ts:84-87 | without a sort field the filtered cars keep their order |
| LegacyCarDataHandling.DistinctKeysOrdered | src/viewmodel/useCarDataHandling.ts:88-91 | with distinct values of the sort field, the cars are strictly ordered in the chosen direction |
| LegacyCarDataHandling.FilterOptionsOf | src/viewmodel/useCarDataHandling.ts:27-49 | the brand, gearbox and color options are the distinct values of the cars; the model options follow the chosen brand, and the year options are the sorted distinct make years |
| LegacyCarDataHandling.DataHandlingState.constructor | src/viewmodel/useCarDataHandling.ts:14-25 | filters start `null`, with no sort field and direction `desc` |
| LegacyCarDataHandling.DataHandlingState.SetSortBy | src/viewmodel/useCarDataHandling.ts:24 | sets the sort field and keeps the direction |
| LegacyCarDataHandling.DataHandlingState.SetSortDirection | src/viewmodel/useCarDataHandling.ts:25 | sets the direction and keeps the sort field |
| LegacyCarDataHandling.DataHandlingState.Filtered | src/viewmodel/useCarDataHandling.ts:57-106 | the memoised list is a permutation of the cars that pass the current filters |
| LegacyCarDataHandling.InitialStateShowsAll | src/viewmodel/useCarDataHandling.ts:57-93 | in the initial state the hook lists every loaded car in its original order |
| CarSearch.SearchState.constructor | src/viewmodel/handling/viewCars/useCarSearch.ts:5 | the query starts empty |
| CarSearch.SearchState.SetSearchQuery | src/viewmodel/handling/viewCars/useCarSearch.ts:5 | sets the query |
| CarSearch.IncludesAllIff | src/viewmodel/handling/viewCars/useCarSearch.ts:14 | `terms.every(term => text.includes(term))` holds exactly when the text includes every term |
| CarSearch.SearchedCars | src/viewmodel/handling/viewCars/useCarSearch.ts:7-16 | a car is found exactly when it is in the input and its lowercased text includes every search term |
| CarSearch.SearchedCarsCount | src/viewmodel/handling/viewCars/useCarSearch.ts:7-16 | a matching car appears as often as in the input, any other car not at all |
| CarSearch.SearchKeepsOrder | src/viewmodel/handling/viewCars/useCarSearch.ts:10 | the found cars are an ordered subsequence of the input |
| CarSearch.BlankQueryKeepsAll | src/viewmodel/handling/viewCars/useCarSearch.ts:8 | an empty or all-whitespace query keeps every car |
| CarSearch.SearchIgnoresQueryCase | src/viewmodel/handling/viewCars/useCarSearch.ts:8 | two queries that lowercase alike find the same cars |
| CarSearch.MoreTermsNarrow | src/viewmodel/handling/viewCars/useCarSearch.ts:14 | adding terms only removes cars, keeping the rest in order |
| CarSearch.TermOrderIrrelevant | src/viewmodel/handling/viewCars/useCarSearch.ts:14 | the order and repetition of the terms do not matter |
| CarSearch.CarTextIsJoinedWords | src/viewmodel/handling/viewCars/useCarSearch.ts:11-12 | the searched text is brand, model, gearbox, year and color, lowercased and joined by spaces |
| CarSearch.SearchByWords | src/viewmodel/handling/viewCars/useCarSearch.ts:8-14 | a query of space-separated words finds exactly the cars where each lowercased word occurs within one of the car's five values |
| CarSearchExamples.EmptyQueryReturnsAll | src/viewmodel/handling/viewCars/__tests__/useCarSearch.test.ts:42-46 | the empty query returns all three fixture cars |
| CarSearchExamples.SearchByBrand | src/viewmodel/handling/viewCars/__tests__/useCarSearch.test.ts:48-57 | "Toyota" finds the Corolla and the Camry |
| CarSearchExamples.SearchByBrandAndModel | src/viewmodel/handling/viewCars/__tests__/useCarSearch.test.ts:59-68 | "Toyota Camry" finds only the Camry |
| CarSearchExamples.SearchByYear | src/viewmodel/handling/viewCars/__tests__/useCarSearch.test.ts:70-79 | "2021" finds only the Civic |
| CarSearchExamples.SearchByManyTerms | src/viewmodel/handling/viewCars/__tests__/useCarSearch.test.ts:81-90 | "Manual Black 2021" finds only the Civic |
| CarSearchExamples.SearchByNoMatch | src/viewmodel/handling/viewCars/__tests__/useCarSearch.test.ts:92-100 | "Tesla" finds nothing |
| CarSearchExamples.CorollaValues | src/viewmodel/handling/viewCars/__tests__/useCarSearch.test.ts:6-40 | the Corolla fixture's searched values are toyota, corolla, automatic, 2020 and blue |
| CarSearchExamples.CivicValues | src/viewmodel/handling/viewCars/__tests__/useCarSearch.test.ts:6-40 | the Civic fixture's searched values are honda, civic, manual, 2021 and black |
| CarSearchExamples.CamryValues | src/viewmodel/handling/viewCars/__tests__/useCarSearch.test.ts:6-40 | the Camry fixture's searched values are toyota, camry, automatic, 2019 and red |
| CarSorting.SortedCars | src/viewmodel/handling/viewCars/useCarSorting.ts:16-37 | the sorted cars are a permutation of the input (`[...cars].sort`) |
| CarSorting.SortingState.constructor | src/viewmodel/handling/viewCars/useCarSorting.ts:13-14 | no sort field and direction `desc` at first |
| CarSorting.SortingState.SetSortBy | src/viewmodel/handling/viewCars/useCarSorting.ts:13 | sets the sort field and keeps the direction |
| CarSorting.SortingState.SetSortDirection | src/viewmodel/handling/viewCars/useCarSorting.ts:14 | sets the direction and keeps the sort field |
| CarSorting.SortingState.Sorted | src/viewmodel/handling/viewCars/useCarSorting.ts:16-37 | the memoised `sortedCars` is a permutation of the cars |
| CarSorting.UnsortedWithoutKey | src/viewmodel/handling/viewCars/useCarSorting.ts:18-29 | with no sort field, or one that is not a key of a car, the cars keep their order |
| CarSorting.SortedInDirection | src/viewmodel/handling/viewCars/useCarSorting.ts:22-35 | sorting by a field of a car puts every pair of cars in the chosen direction of that field |
| CarSorting.EqualKeysKeepOrder | src/viewmodel/handling/viewCars/useCarSorting.ts:31-35 | cars with equal values of the sort field keep their relative order (the sort is stable) |
| CarSorting.InitialStateKeepsOrder | src/viewmodel/handling/viewCars/useCarSorting.ts:13-20 | in the initial state the hook returns the cars as given |
| CarSortingExamples.NullSortKeepsOrder | src/viewmodel/handling/viewCars/__tests__/useCarSorting.test.ts:42-46 | sorting by `null` keeps the fixture order |
| CarSortingExamples.MakeYearDescending | src/viewmodel/handling/viewCars/__tests__/useCarSorting.test.ts:48-57 | make year descending gives Civic, Corolla, Camry |
| CarSortingExamples.MakeYearAscending | src/viewmodel/handling/viewCars/__tests__/useCarSorting.test.ts:59-69 | make year ascending gives Camry, Corolla, Civic |
| CarSortingExamples.BrandAscending | src/viewmodel/handling/viewCars/__tests__/useCarSorting.test.ts:71-81 | brand ascending gives Civic, Corolla, Camry: the two Toyotas keep their order |
| CarSortingExamples.DatePostedDescending | src/viewmodel/handling/viewCars/__tests__/useCarSorting.test.ts:83-92 | date posted descending gives Camry, Civic, Corolla |
| CarSortingExamples.UnknownFieldKeepsOrder | src/viewmodel/handling/viewCars/__tests__/useCarSorting.test.ts:94-104 | a field that is not a key of a car keeps the fixture order |
| CarSortingExamples.YearsDesc | src/viewmodel/handling/viewCars/useCarSorting.ts:22-35 | the three-way comparator on the fixtures' make years, descending |
| CarSortingExamples.YearsAsc | src/viewmodel/handling/viewCars/useCarSorting.ts:22-35 | the three-way comparator on the fixtures' make years, ascending |
| CarSortingExamples.BrandsAsc | src/viewmodel/handling/viewCars/useCarSorting.ts:31-35 | the three-way comparator on the fixtures' brands, 0 for the two Toyotas |
| LegacyCarSorting.SortedCars | src/viewmodel/handling/useCarSorting.ts:20-28 | the sorted cars are a permutation of the input |
| LegacyCarSorting.SortingState.constructor | src/viewmodel/handling/useCarSorting.ts:16-18 | no sort field and direction `desc` at first |
| LegacyCarSorting.SortingState.SetSortBy | src/viewmodel/handling/useCarSorting.ts:16 | sets the sort field and keeps the direction |
| LegacyCarSorting.SortingState.SetSortDirection | src/viewmodel/handling/useCarSorting.ts:18 | sets the direction and keeps the sort field |
| LegacyCarSorting.SortingState.Sorted | src/viewmodel/handling/useCarSorting.ts:20-28 | the memoised list is a permutation of the cars |
| LegacyCarSorting.UnsortedWithoutKey | src/viewmodel/handling/useCarSorting.ts:22 | without a sort field the cars keep their order |
| LegacyCarSorting.DistinctKeysNoDuplicates | src/viewmodel/handling/useCarSorting.ts:20-28 | cars with pairwise distinct sort values hold no duplicate car |
| LegacyCarSorting.DifferentCarsDifferentKeys | src/viewmodel/handling/useCarSorting.ts:20-28 | with pairwise distinct sort values, two different cars have different sort values |
| LegacyCarSorting.DistinctKeysSortAsThreeWay | src/viewmodel/handling/useCarSorting.ts:23-26 | with distinct sort values, the two-way comparator sorts exactly as the three-way one of the newer hook |
| LegacyCarSorting.DistinctKeysOrdered | src/viewmodel/handling/useCarSorting.ts:23-26 | with distinct sort values, the result is strictly ordered in the chosen direction |
| CarSortKeys.FieldKey | src/viewmodel/useCarFilters.ts:88-93 | a `SortField` (`makeYear` or `datePosted`) names a key of a car, and `null` names none |
| CarSortKeys.KeyNamed | src/viewmodel/handling/viewCars/useCarSorting.ts:24-29 | a sort field that is a key of a car reads that key |
| CarSortKeys.KeyNamedFieldName | src/viewmodel/handling/viewCars/useCarSorting.ts:24-29 | the name of each field of a car reads that very field |
| CarSortKeys.FieldKeysComparable | src/viewmodel/handling/viewCars/useCarSorting.ts:31-35 | two cars' values of the same field are of the same kind, so `<` and `>` compare them meaningfully |
| CarSortKeys.KeyLessOrder | src/viewmodel/handling/viewCars/useCarSorting.ts:31-35 | `<` on values of one kind is irreflexive, total, asymmetric and transitive |
| CarSortKeys.Flipped | src/viewmodel/useCarSortingConfig.ts:17 | flipping a direction changes it |
| CarSortKeys.FlippedTwice | src/viewmodel/useCarSortingConfig.ts:15-19 | flipping twice restores the direction |
| CarSortKeys.ThreeWayMeaning | src/viewmodel/handling/viewCars/useCarSorting.ts:22-35 | the comparator is at most 0 exactly when the pair is in the chosen direction, and it is 0 on equal values |
| CarSortKeys.ThreeWayIsPreorder | src/viewmodel/handling/viewCars/useCarSorting.ts:17-36 | the three-way comparator is total and transitive on any cars, with or without a sort field |
| CarSortKeys.TwoWayAgreesOnDistinctKeys | src/viewmodel/handling/useCarSorting.ts:26 | on cars with different sort values the two-way comparator agrees with the three-way one |
| JsSort.SortPermutes | src/viewmodel/handling/viewCars/useCarSorting.ts:17 | `Array.prototype.sort` returns a permutation of its input |
| JsSort.SortSorted | src/viewmodel/handling/viewCars/useCarSorting.ts:17 | with a total and transitive comparator, the result is sorted |
| JsSort.SortStable | src/viewmodel/handling/viewCars/useCarSorting.ts:17 | elements that compare as equal keep their relative order |
| JsSort.SortUnchanged | src/viewmodel/handling/viewCars/useCarSorting.ts:18-20 | a comparator that never asks for a swap leaves the sequence unchanged |
| JsSort.SortAgrees | src/viewmodel/handling/useCarSorting.ts:21-27 | two comparators that agree on all distinct pairs of a duplicate-free sequence sort it alike |
| CarDataHandling.TagUserCars | src/viewmodels/handling/viewCars/useCarDataHandling.ts:21-24 | each car keeps its place, and is flagged as the user's exactly when its owner is the signed-in user |
| CarDataHandling.CarsWithUserTag | src/viewmodels/handling/viewCars/useCarDataHandling.ts:12-27 | untagged, the result is the filtered, searched and sorted list |
| CarDataHandling.ListedCarsMeaning | src/viewmodels/handling/viewCars/useCarDataHandling.ts:12-19 | the listed cars are a permutation of the searched filtered cars, no more than were loaded, and a car is listed exactly when it is loaded, passes the filters and matches the search |
| CarDataHandling.SubsequenceNotLonger | src/viewmodels/handling/viewCars/useCarDataHandling.ts:12-19 | filtering and searching never lengthen the list |
| CarDataHandling.CarsWithUserTagMeaning | src/viewmodels/handling/viewCars/useCarDataHandling.ts:21-27 | each entry of `carsWithUserTag` is a loaded listed car in listing order with `isUserCar` true exactly for the user's own cars |
| CarDataHandlingExamples.UserCarFlags | src/viewmodels/handling/viewCars/__tests__/useCarDataHandling.test.ts:42-60 | with user 1 the first fixture car is flagged as the user's and the second is not |
| CarDataHandlingExamples.SearchCorolla | src/viewmodels/handling/viewCars/__tests__/useCarDataHandling.test.ts:62-87 | the query "Corolla" finds the Corolla |
| CarDataHandlingExamples.ToyotaOnly | src/viewmodels/handling/viewCars/__tests__/useCarDataHandling.test.ts:62-87 | the brand filter Toyota keeps only the Corolla |
| CarDataHandlingExamples.FiltersSearchAndSortCompose | src/viewmodels/handling/viewCars/__tests__/useCarDataHandling.test.ts:62-87 | brand Toyota, query Corolla and make year descending together list one Toyota Corolla |
| HandlingCarDataHandling.CarsWithUserTag | src/viewmodel/handling/useCarDataHandling.ts:13-31 | untagged, the result is the filtered, searched and sorted list |
| HandlingCarDataHandling.ListedCarsMeaning | src/viewmodel/handling/useCarDataHandling.ts:13-22 | a permutation of the searched truthiness-filtered cars, no more than were loaded, holding exactly the loaded cars that pass and match |
| HandlingCarDataHandling.CarsWithUserTagMeaning | src/viewmodel/handling/useCarDataHandling.ts:25-31 | each entry is a loaded listed car in order, flagged exactly when it is the user's |
| Cars.FindCar | src/viewmodel/useCars.ts:26 | `cars?.find(c => c.id === carId)` is nothing exactly when no loaded car has the id, and otherwise a loaded car with that id |
| Cars.IsCarOwner | src/viewmodel/useCars.ts:25-28 | for a known car: true exactly when its owner is the user; for an unknown car: true exactly when nobody is signed in |
| Cars.UnknownCarOwnedWithoutUser | src/viewmodel/useCars.ts:26-27 | signed out, any id counts as owned, whether the cars are not loaded or empty |
| Cars.IsCarOwnerChecked | src/viewmodel/useCars.ts:25-28 | true exactly when a user is signed in and the car found for the id is a loaded car owned by that user |
| Cars.CheckedAgreesOnKnownCars | src/viewmodel/useCars.ts:25-28 | the checked version agrees with the hook whenever the car is known or a user is signed in, and never grants an unknown car |
| Cars.OwnerOfUniqueId | src/viewmodel/useCars.ts:25-28 | when ids are unique, a user owns the car with an id exactly when that car's owner is the user |
| SortingConfig.SortTitle | src/viewmodel/useCarSortingConfig.ts:31 | the title reads "Sort by: None" exactly when no sort field is chosen |
| SortingConfig.SortingConfigs | src/viewmodel/useCarSortingConfig.ts:29-57 | three items: the sort-by item, always shown and titled by the field; the direction item, titled by the direction and hidden exactly without a sort field; "Reset Sorting", hidden exactly in the default sorting |
| SortingConfig.SortByOptionsCoverFields | src/viewmodel/useCarSortingConfig.ts:35-39 | every sort field, and `null`, is offered exactly once |
| SortingConfig.ToggleSortDirection | src/viewmodel/useCarSortingConfig.ts:15-19 | the direction flips and the sort field is kept |
| SortingConfig.ResetSorting | src/viewmodel/useCarSortingConfig.ts:21-27 | afterwards there is no sort field, the direction is `desc`, the sorting is the default and the reset item is hidden |
| SortingConfig.ToggleTwiceRestores | src/viewmodel/useCarSortingConfig.ts:15-19 | pressing the direction item twice restores the state |
| SortingHeader.SortByLabel | src/views/screens/DataListScreen/components/SortingHeader.tsx:24-33 | the label is "Relevance" exactly when the sort field is neither make year nor date posted |
| SortingHeader.MapSortByValue | src/views/screens/DataListScreen/components/SortingHeader.tsx:35-45 | a picker value maps to a field exactly when it is `makeYear` or `datePosted`, and then to the field of that name |
| SortingHeader.PickerRoundTrip | src/views/screens/DataListScreen/components/SortingHeader.tsx:24-64 | picking any option shows that option's caption as the label |
| SortingHeader.LabelsDistinguishKeys | src/views/screens/DataListScreen/components/SortingHeader.tsx:24-33 | two sort fields with the same label other than "Relevance" are the same field |
| SortingHeader.PickedValue | src/views/screens/DataListScreen/components/SortingHeader.tsx:68 | `value \|\| 'Relevance'` is always truthy and is the value itself when that is truthy |
| SortingHeader.OnSortByChange | src/views/screens/DataListScreen/components/SortingHeader.tsx:66-74 | the sort field becomes the mapped pick, and the direction resets to `desc` only when Relevance is picked |
| SortingHeader.DirectionLabel | src/views/screens/DataListScreen/components/SortingHeader.tsx:82 | the button reads "Oldest" exactly for ascending order |
| SortingHeader.PressDirection | src/views/screens/DataListScreen/components/SortingHeader.tsx:83-87 | pressing the direction button flips the direction and keeps the field |
| SortingHeader.PressChangesLabel | src/views/screens/DataListScreen/components/__tests__/SortingHeader.test.tsx:74-85 | every press changes the label, and from "Newest" it goes to ascending |
| SortingHeader.ChooseRelevance | src/views/screens/DataListScreen/components/__tests__/SortingHeader.test.tsx:87-92 | picking Relevance clears the field, resets the direction and hides the direction button |
| FilterConfig.ResetFilters | src/viewmodel/useCarFilterConfig.ts:25-32 | every attribute filter becomes `null`, "only my cars" is kept, and the reset item is then disabled |
| FilterConfig.DisabledResetChangesNothing | src/viewmodel/useCarFilterConfig.ts:34-40 | when the reset item is disabled the listed cars are those of cleared filters |
| FilterConfig.Title | src/viewmodel/useCarFilterConfig.ts:49 | an item title reads "name: All" without a value and "name: value" with one |
| FilterConfig.YearText | src/viewmodel/useCarFilterConfig.ts:102 | a year is shown as a text that parses back to it; no year, no text |
| FilterConfig.ModalOptions | src/viewmodel/useCarFilterConfig.ts:53-59 | an "All ..." option with value `null`, then one option per value, labelled and valued by it |
| FilterConfig.YearModalOptions | src/viewmodel/useCarFilterConfig.ts:106-112 | "All Years" with value `null`, then one option per year whose value is the year's text |
| FilterConfig.Number | src/viewmodel/useCarFilterConfig.ts:114-115 | `Number(value)` is 0 for `null` and the parsed year otherwise |
| FilterConfig.AllYearsSelectsZero | src/viewmodel/useCarFilterConfig.ts:114-120 | picking "All Years" as the upper bound stores 0: the title reads "Year To: 0", filters are active, and the `!== null` check rejects every car of a positive year |
| FilterConfig.YearSelection | src/viewmodel/useCarFilterConfig.ts:114-115 | the intended conversion: `null` stays `null`, a text becomes its year |
| FilterConfig.YearSelectionRoundTrip | src/viewmodel/useCarFilterConfig.ts:102-115 | picking the i-th year option stores that year, or `null` for "All Years", and the title shows it back |
| FilterConfig.SelectYearFromAsWritten | src/viewmodel/useCarFilterConfig.ts:114-115 | as written: the lower bound becomes `Number(value)`, so "All Years" stores 0; nothing else changes |
| FilterConfig.SelectYearToAsWritten | src/viewmodel/useCarFilterConfig.ts:132 | as written: the upper bound becomes `Number(value)`, so "All Years" stores 0; nothing else changes |
| FilterConfig.WrittenAndIntendedDifferOnAllYears | src/viewmodel/useCarFilterConfig.ts:114-132 | the written and the intended handlers store the same year for every year text and differ only on "All Years" (0 against `null`) |
| FilterConfig.SelectYearFrom | src/viewmodel/useCarFilterConfig.ts:114-115 | the intended handler: "All Years" clears the lower bound, a year text sets it; nothing else changes |
| FilterConfig.SelectYearTo | src/viewmodel/useCarFilterConfig.ts:132 | the intended handler: "All Years" clears the upper bound, a year text sets it; nothing else changes |
| FilterConfig.FilterConfigsMeaning | src/viewmodel/useCarFilterConfig.ts:42-153 | seven items: a reset item disabled exactly when no filter is set, then brand, model, gearbox, the two years and color, each titled by its value and offering "All" first |
| FiltersHeader.SafelyConvertValueToString | src/views/screens/DataListScreen/components/FiltersHeader.tsx:13-17 | nothing becomes `''`, a text stays itself, and a number becomes a text that parses back to it |
| FiltersHeader.ButtonTitle | src/views/screens/DataListScreen/components/FiltersHeader.tsx:45-49 | a button shows its value when that is truthy and "All title" otherwise |
| FiltersHeader.PickerOptions | src/views/screens/DataListScreen/components/FiltersHeader.tsx:57 | "All title" with value `''`, then one option per value |
| FiltersHeader.YearPickerOptions | src/views/screens/DataListScreen/components/FiltersHeader.tsx:113-138 | the year picker offers `''` first, then each year's text |
| FiltersHeader.YearOfText | src/views/screens/DataListScreen/components/FiltersHeader.tsx:121-124 | `''` gives `null`, and a year text gives its `parseInt` |
| FiltersHeader.YearPickerRoundTrip | src/views/screens/DataListScreen/components/FiltersHeader.tsx:113-138 | picking the i-th year option stores that year (or `null`), and the button then shows its text, or "All ..." for `null` and 0 |
| FiltersHeader.TextPickerRoundTrip | src/views/screens/DataListScreen/components/FiltersHeader.tsx:57-61 | picking a text option stores its value, and the button then shows it, or "All ..." for `''` |
| FiltersHeader.OnYearFromChange | src/views/screens/DataListScreen/components/FiltersHeader.tsx:121-124 | the lower bound becomes the picked year and nothing else changes |
| FiltersHeader.OnYearToChange | src/views/screens/DataListScreen/components/FiltersHeader.tsx:134-137 | the upper bound becomes the picked year and nothing else changes |
| FiltersHeader.ToggleUserCars | src/views/screens/DataListScreen/components/FiltersHeader.tsx:89-91 | "only my cars" flips and nothing else changes |
| FiltersHeader.HeaderTitles | src/views/screens/DataListScreen/components/FiltersHeader.tsx:76-158 | eight buttons: "Reset Filters" exactly while filters are active, "My Cars Only" exactly while only the user's cars are shown, then the brand, model, from-year, to-year, gearbox and color buttons, each showing its value while it is truthy and "All <name>" otherwise |
| FiltersHeader.UnsetTitles | src/views/screens/DataListScreen/components/FiltersHeader.tsx:93-158 | with no filters set, every value button reads "All ..." |
| FiltersHeader.ResetShowsNoFilters | src/views/screens/DataListScreen/components/FiltersHeader.tsx:76-80 | after a reset the header reads "No Filters Set", "All Cars" and "All ..." everywhere |
| FiltersHeader.TestTitles | src/views/screens/DataListScreen/components/__tests__/FiltersHeader.test.tsx:58-125 | with filters active but none set, the header shows the buttons the tests press |
| CarForms.Set | src/viewmodel/handling/addCar/useAddCarForm.ts:41-46 | `{...prev, [key]: value}` gives the key the new value and keeps every other key |
| CarForms.SetLastWins | src/viewmodel/handling/addCar/useAddCarForm.ts:41-46 | updating one key twice keeps the second value |
| CarForms.SetCommutes | src/viewmodel/handling/addCar/useAddCarForm.ts:41-46 | updates of two different keys commute |
| CarForms.FormState.constructor | src/viewmodel/handling/addCar/useAddCarForm.ts:27-34 | the form starts with every field `null` |
| CarForms.FormState.UpdateCarData | src/viewmodel/handling/addCar/useAddCarForm.ts:41-46 | `updateCarData` applies the key update to the form |
| CarForms.FormState.SetCarData | src/viewmodel/handling/addCar/useAddCarForm.ts:27 | `setCarData` replaces the form |
| CarForms.UpdateResettingModel | src/viewmodel/handling/useAddCarForm.ts:82-91 | after an update the model is cleared exactly when the brand changed |
| CarForms.NewCar | src/viewmodel/handling/addCar/useAddCarForm.ts:54-64 | the new car takes the id, the user and every form field, a missing photo as `''`, and the date part of the timestamp before its first `T` |
| CarForms.DatePostedOfIsoTimestamp | src/viewmodel/handling/addCar/useAddCarForm.ts:63 | for an ISO timestamp the posted date is its first ten characters |
| CarForms.Submit | src/viewmodel/handling/addCar/useAddCarForm.ts:66-72 | the car is passed to `addCar`; on success one success alert and `goBack`, on failure one failure alert and no `goBack` |
| CarForms.FindBrand | src/viewmodel/handling/addCar/useCarImageUpdater.ts:12-14 | `find` on the catalogue gives the first entry of the brand, and nothing exactly when there is none or no catalogue |
| CarForms.FindModel | src/viewmodel/handling/addCar/useCarImageUpdater.ts:22 | `find` gives a model of that name, and nothing exactly when there is none |
| CarForms.BrandModelNames | src/viewmodels/handling/addCar/useAddCarForm.ts:78-89 | the model names of the chosen brand, and none when the brand is not in the catalogue |
| CarValidation.ValidateCarForm | src/viewmodel/handling/addCar/useCarValidation.ts:5-13 | valid exactly when brand, model, year, gearbox and color are all truthy; an invalid form raises one alert |
| CarValidation.PhotoIsOptional | src/viewmodel/handling/addCar/useCarValidation.ts:6 | the photo never affects validation |
| CarValidation.MissingFieldInvalid | src/viewmodel/handling/addCar/useCarValidation.ts:8-11 | a missing or falsy brand, model, year, gearbox or color makes the form invalid |
| CarValidation.FilledFormValid | src/viewmodel/handling/addCar/useCarValidation.ts:8-12 | any truthy values make the form valid, and the empty form is invalid |
| CarValidation.ValidationTestCases | src/viewmodel/handling/addCar/__tests__/useCarValidation.test.ts:13-108 | the test form is valid with no alert; without brand, year, gearbox or color it is invalid with one alert |
| CarImageUpdater.PhotoUpdate | src/viewmodel/handling/addCar/useCarImageUpdater.ts:10-27 | the effect changes the photo only when a brand is chosen and found in the catalogue |
| CarImageUpdater.UpdatedPhoto | src/viewmodel/handling/addCar/useCarImageUpdater.ts:10-27 | only the photo ever changes, and nothing changes without a found brand |
| CarImageUpdater.BrandImageWithoutModel | src/viewmodel/handling/addCar/useCarImageUpdater.ts:11-17 | with a brand but no model, the photo becomes the brand image |
| CarImageUpdater.ModelImageWithModel | src/viewmodel/handling/addCar/useCarImageUpdater.ts:18-25 | with a brand and a known model, the photo becomes the model image, or `null` for an empty image in this hook |
| CarImageUpdater.UnknownModelUnchanged | src/viewmodel/handling/addCar/useCarImageUpdater.ts:22-25 | a model the brand does not list leaves the form unchanged |
| CarImageUpdater.UpdatedPhotoIdempotent | src/viewmodel/handling/addCar/useCarImageUpdater.ts:10-27 | the effect running again after its own update changes nothing |
| CarImageUpdater.ImageRulesSubmitAlike | src/viewmodel/handling/useAddCarForm.ts:77 | storing an empty model image as `null` or as is makes no difference to the submitted car |
| CarImageUpdater.ApplyPhotoUpdate | src/viewmodel/handling/addCar/useCarImageUpdater.ts:10-27 | the effect leaves the form that the photo-update function gives |
| CarImageUpdater.ImageUpdaterTestCases | src/viewmodel/handling/addCar/__tests__/useCarImageUploader.test.ts:13-80 | brand Toyota alone shows the Toyota image; Toyota Corolla shows the Corolla image |
| AddCarForm.ResetUnlistedModel | src/viewmodels/handling/addCar/useAddCarForm.ts:78-89 | only the model is ever cleared; with a brand chosen, a kept model is listed for it and a cleared one was not; without a brand nothing changes |
| AddCarForm.ResetUnlistedModelIdempotent | src/viewmodels/handling/addCar/useAddCarForm.ts:78-89 | running the effect twice equals running it once |
| AddCarForm.ListedModelKept | src/viewmodels/handling/addCar/useAddCarForm.ts:78-89 | a model the chosen brand lists is kept |
| AddCarForm.ApplyModelReset | src/viewmodels/handling/addCar/useAddCarForm.ts:78-89 | the effect leaves the form that the model-reset function gives |
| AddCarForm.HandleAddCar | src/viewmodels/handling/addCar/useAddCarForm.ts:51-76 | a car is submitted exactly when the form is complete; an incomplete form raises the validation alert and the hook's own alert, without `goBack`; `goBack` happens exactly on an accepted complete form |
| AddCarForm.SubmitTestCase | src/viewmodels/handling/addCar/__tests__/useAddCarForm.test.ts:77-115 | the test form submits a Toyota Corolla of 2022, manual, black, owned by user 123 with an empty photo, then alerts success and goes back |
| AddCarForm.ModelResetTestCase | src/viewmodels/handling/addCar/__tests__/useAddCarForm.test.ts:169-194 | choosing a brand without the chosen model clears the model |
| LegacyAddCarForm.YearOptionsOf | src/viewmodel/handling/useAddCarForm.ts:56-59 | twenty years from the current one down |
| LegacyAddCarForm.UpdateCarData | src/viewmodel/handling/useAddCarForm.ts:82-91 | an update that changes the brand clears the model; any other update only sets its key |
| LegacyAddCarForm.ApplyPhotoUpdate | src/viewmodel/handling/useAddCarForm.ts:61-80 | the photo effect of this hook stores the model image as is |
| LegacyAddCarForm.HandleAddCar | src/viewmodel/handling/useAddCarForm.ts:93-126 | a car is submitted exactly when the form is complete; otherwise one alert and no `goBack` |
| LegacyAddCarForm.BrandThenModel | src/viewmodel/handling/useAddCarForm.ts:82-91 | picking a model after a brand keeps both, and picking another brand then clears the model |
| AddCarViewModel.YearRange | src/viewmodel/useAddCarViewModel.ts:36-37 | twenty-one years from the current one down, and exactly those |
| AddCarViewModel.FilteredModels | src/viewmodel/useAddCarViewModel.ts:88-90 | the models of the chosen brand, and none without a brand or with an unknown one |
| AddCarViewModel.UpdateCarData | src/viewmodel/useAddCarViewModel.ts:39-48 | an update that changes the brand clears the model, any other update only sets its key, and the photo is never touched |
| AddCarViewModel.HandleAddCar | src/viewmodel/useAddCarViewModel.ts:50-78 | a complete form submits a car with the fixed placeholder photo; an incomplete one raises one alert and nothing else |
| AddCarViewModel.SubmittedPhotoIsFixed | src/viewmodel/useAddCarViewModel.ts:66-67 | the submitted photo is always the placeholder URL |
| DbJson.FetchedOr | populate-db-images.js:54 | `imageUrl \|\| fallback` is the URL when it is non-empty and the fallback otherwise |
| CarPhotoScripts.FirstOfBrand | populate-db-images.js:50-57 | the first index at or after k of a car of the brand |
| CarPhotoScripts.FirstOfBrandMeaning | populate-db-images.js:50-57 | nothing exactly when no car of the brand follows k; otherwise no earlier car has the brand |
| CarPhotoScripts.BrandPhoto | populate-db-images.js:52-54 | the photo a brand receives is never empty |
| CarPhotoScripts.PhotosAssigned | populate-db-images.js:50-57 | each car keeps every field but its photo, which becomes its brand's photo |
| CarPhotoScripts.PhotosAssignedMeaning | populate-db-images.js:50-57 | each car's photo is non-empty, shared by all cars of its brand, and is the search result for the first car of that brand |
| CarPhotoScripts.FirstOfBrandPhoto | populate-db-images.js:52-54 | the first car of a brand gets the search result for itself, or the default URL |
| CarPhotoScripts.StepKeeps | populate-db-images.js:52-55 | one car adds its brand to the cache, keeps every cached brand's URL, and caches a new brand's search result |
| CarPhotoScripts.AfterKeys | populate-db-images.js:50-57 | after i cars, exactly the brands among them are cached |
| CarPhotoScripts.AfterValues | populate-db-images.js:50-57 | every cached URL is the photo of its brand |
| CarPhotoScripts.AfterMeaning | populate-db-images.js:50-57 | after i cars the cache holds exactly their brands, each with its brand's photo |
| CarPhotoScripts.LookUpBrand | populate-db-images.js:52-56 | the loop body takes one step of the cache and returns the brand's cached URL |
| CarPhotoScripts.AssignBrandPhotos | populate-db-images.js:50-57 | the loop rewrites the cars in place to the assigned photos, and searches each brand exactly once |
| CarPhotoScripts.PopulateDbImages | populate-db-images.js:32-60 | an unreadable file is not written; otherwise `carsPosted` (or `[]`) gets the brand photos, searched by brand and model, and all else is kept |
| CarPhotoScripts.UpdateDb | update-db.js:32-60 | an unreadable file writes `{cars: []}`; a file without `cars` writes nothing; otherwise `{cars}` is written with the brand photos searched by brand |
| SupportedCarImages.ModelText | populate-db-supported-car-images.js:66 | a bare name stands for itself, and an object with a name for its name |
| SupportedCarImages.ModelImage | populate-db-supported-car-images.js:75-77 | the image a model search yields is never empty |
| SupportedCarImages.ModelsAfterPrefix | populate-db-supported-car-images.js:65-92 | later models never change an earlier one |
| SupportedCarImages.ModelsAfterKeepsCached | populate-db-supported-car-images.js:65-92 | a truthy model cache entry stays truthy |
| SupportedCarImages.ProcessModelsMeaning | populate-db-supported-car-images.js:65-92 | each model keeps its name; an object with a real image is kept; one with a default image gets a new search result; a bare name stays only if its key is cached; others become objects with the cached image |
| SupportedCarImages.DefaultModelImageIsRetried | populate-db-supported-car-images.js:72 | the stored default model URL contains 'default', so it is searched again on the next run |
| SupportedCarImages.DefaultBrandImageIsRetried | populate-db-supported-car-images.js:55 | the stored default brand URL contains 'default', so it is searched again on the next run |
| SupportedCarImages.IndexOf | populate-db-supported-car-images.js:82 | `indexOf` gives -1 or a position holding the entry |
| SupportedCarImages.IndexOfAt | populate-db-supported-car-images.js:82 | an entry not occurring before position i is found at i |
| SupportedCarImages.OwnPosition | populate-db-supported-car-images.js:80-86 | a bare name about to be replaced is found by `indexOf` at its own position |
| SupportedCarImages.StringsCached | populate-db-supported-car-images.js:65-92 | every model still a bare name after the first i has its key cached |
| SupportedCarImages.UpdateModelImages | populate-db-supported-car-images.js:65-92 | the inner loop rewrites the models in place to the processed models, and returns the processed cache |
| SupportedCarImages.BrandsAfterPrefix | populate-db-supported-car-images.js:51-92 | later brands never change an earlier one |
| SupportedCarImages.BrandsAfterKeepsCached | populate-db-supported-car-images.js:56-59 | a truthy brand cache entry stays, with its image |
| SupportedCarImages.BrandImageCached | populate-db-supported-car-images.js:55-61 | a brand that needed an image gets its brand's cached image |
| SupportedCarImages.UpdatedCatalogueMeaning | populate-db-supported-car-images.js:51-92 | each brand keeps its name and its number of models; a brand with a real image keeps it; a brand needing one gets a non-empty one, shared by all entries of that brand |
| SupportedCarImages.ProcessBrand | populate-db-supported-car-images.js:51-92 | the body of the outer loop performs one brand step |
| SupportedCarImages.UpdateBrandImages | populate-db-supported-car-images.js:51-92 | the outer loop rewrites the catalogue in place to the updated catalogue |
| SupportedCarImages.UpdateSupportedCarBrandsAndModels | populate-db-supported-car-images.js:32-99 | an unreadable file is not written; otherwise only the catalogue (or `[]`) is replaced by the updated one |
| JsText.IncludesIff | src/viewmodel/handling/viewCars/useCarSearch.ts:14 | `includes` holds exactly when the pattern occurs at some position |
| JsText.IncludesJoinWords | src/viewmodel/handling/viewCars/useCarSearch.ts:11-14 | a single word occurs in space-joined words exactly when it occurs in one of them |
| JsText.SplitJoinWords | src/viewmodel/handling/viewCars/useCarSearch.ts:8 | `split(/\s+/)` of words joined by spaces gives back the words |
| JsText.TrimToLower | src/viewmodel/handling/viewCars/useCarSearch.ts:8 | trimming and lowercasing commute |
| JsText.ToLower | src/viewmodel/handling/viewCars/useCarSearch.ts:8 | lowercasing keeps the length and maps each character on its own |
| JsText.ParseIntToString | src/views/screens/DataListScreen/components/FiltersHeader.tsx:121-124 | `parseInt` of a number's text gives back the number |
| JsText.StrLessMatchesNumericOrder | src/viewmodel/useCarFilters.ts:56-59 | for numbers with equally many digits, string order of their texts is numeric order |
| JsText.BeforeFirstT | src/viewmodel/handling/addCar/useAddCarForm.ts:63 | `split('T')[0]` is the longest prefix without a `T` |

## Left out

- Networking, storage and logging are not modelled: `fetch`/`axios`, AsyncStorage, the file system, `console` output, and the JSON text of `db.json`. The file is reduced to a parsed `Db` value or to "unreadable". The image search is a deterministic function of its query, so the model cannot capture a search that answers differently the second time.
- React scheduling, re-renders and `useMemo`/`useCallback` are left out. Memoised values are functions of the state. Each effect is a method the caller runs after the change that triggers it.
- The visibility state of the picker modals (`useState(false)` and its toggles in the config and header hooks) is left out. It only drives rendering.
- `Math.random()` ids, `new Date()` and `getFullYear()` are parameters.
- `toLowerCase` is modelled for ASCII letters only. JavaScript lowercases all of Unicode.
- String `<` compares characters as Dafny does, which is UTF-16 code-unit order only for characters of the Basic Multilingual Plane.
- Make years are integers. `NaN` from `Number`/`parseInt` on a non-numeric text is not modelled. FilterConfig.Number, FilterConfig.YearSelection, FilterConfig.SelectYearFrom and FilterConfig.SelectYearTo require a picker value that is `null` or a year text. FiltersHeader.YearOfText, FiltersHeader.OnYearFromChange and FiltersHeader.OnYearToChange require `''` or a year text. These are the only values the pickers offer.
- CarSortKeys.KeyNamed: keys that exist on every object through its prototype (such as `constructor`) are treated like any other unknown sort field. JavaScript would read a function there.
- CarPhotoScripts.LookUpBrand, CarPhotoScripts.AssignBrandPhotos, SupportedCarImages.ModelImage, SupportedCarImages.UpdateModelImages and SupportedCarImages.UpdateBrandImages: the scripts cache in plain `{}` objects (populate-db-images.js:47, populate-db-supported-car-images.js:47-48), where a brand or model key such as `constructor` reads a value inherited from the prototype. The model's caches are maps that hold only what was stored, so such keys are treated as not cached.
- LegacyCarSorting.SortedCars, LegacyCarFilters.FilteredCars and LegacyCarDataHandling.FilteredCars: the two-way comparator `a > b ? 1 : -1` answers -1 for equal keys. Its order on ties depends on the engine's sort algorithm and is not claimed. Only the permutation, the unchanged order without a field, and the strict order for distinct keys are proved.
- SupportedCarImages.UpdateSupportedCarBrandsAndModels: a brand without a `models` array makes the script throw. This is not modelled; every brand has a (possibly empty) list.
- SupportedCarImages.ModelText: an object whose `name` is missing or empty falls back to the object's text, which is not modelled beyond "some text".
- CarPhotoScripts.UpdateDb: `cars` missing from the file makes the loop throw a `TypeError`. The model returns "nothing written" for it.
- Sorting "on a copy" (`[...cars].sort`) is implicit: sequences are values, so the caller's cars are never changed.
- `useCars().cars` (src/viewmodel/useCars.ts:16-23,31) passes the data-handling hook's filtered cars through unchanged. It has no member of its own beyond the data-handling models above.
- The screens and components under src/views/ and src/view/ are not part of this model, beyond the two headers' titles, pickers and handlers. Neither are geolocation, theme and user contexts, or the repository services.
- src/viewmodels/handling/viewCars/useCarSearch.ts and src/viewmodels/handling/viewCars/useCarSorting.ts, which src/viewmodels/handling/viewCars/useCarDataHandling.ts imports, are not part of this model. The composition uses the hooks of the same names under src/viewmodel/handling/viewCars/.
- src/viewmodel/handling/useCarSearch.ts and src/viewmodel/handling/useCarSorting.ts are different files. The first, which src/viewmodel/handling/useCarDataHandling.ts imports, is not part of this model; the composition uses the same search. The second is the one modelled in `LegacyCarSorting`.

## Findings

| source | as written | input that shows it | evidently intended | confidence | as-written member | corrected member |
|---|---|---|---|---|---|---|
| src/viewmodel/useCarFilterConfig.ts:114-115,132 | `setFilterYearFrom(Number(value))` / `setFilterYearTo(Number(value))` turn the "All Years" option (value `null`) into the year 0 | pick "All Years" for Year To: the title reads "Year To: 0", filters count as active, and under the `!== null` checks of src/viewmodel/useCarFilters.ts every car of a positive year is rejected | "All Years" clears the bound to `null` | not executed | FilterConfig.AllYearsSelectsZero, FilterConfig.SelectYearFromAsWritten, FilterConfig.SelectYearToAsWritten | FilterConfig.YearSelectionRoundTrip, FilterConfig.SelectYearFrom, FilterConfig.SelectYearTo |
| src/viewmodel/useCars.ts:26-27 | `cars?.find(...)?.userId === userId` is `undefined === undefined` for an unknown car id while nobody is signed in | signed out, with cars not loaded or none matching the id: the hook reports the user as the car's owner | an unknown car is owned by nobody | not executed | Cars.UnknownCarOwnedWithoutUser | Cars.CheckedAgreesOnKnownCars |
