/** The cases of src/viewmodel/handling/viewCars/__tests__/useCarSorting.test.ts,
    stated about the sorting model. */
module CarSortingExamples {

  import opened Wrappers
  import opened CarEntity
  import opened JsText
  import opened CarSortKeys
  import opened CarSorting
  import opened CarFixtures
  import JsSort

  lemma InsertIntoOne(x: Car, z: Car, cmp: (Car, Car) -> int)
    ensures JsSort.Insert(x, [z], cmp) == if cmp(x, z) <= 0 then [x, z] else [z, x]
  {
    assert [z][1..] == [];
  }

  lemma InsertIntoTwo(x: Car, y: Car, z: Car, cmp: (Car, Car) -> int)
    ensures JsSort.Insert(x, [y, z], cmp)
         == if cmp(x, y) <= 0 then [x, y, z] else if cmp(x, z) <= 0 then [y, x, z] else [y, z, x]
  {
    assert [y, z][1..] == [z];
    InsertIntoOne(x, z, cmp);
  }

  lemma SortOfTwo(b: Car, c: Car, cmp: (Car, Car) -> int)
    ensures JsSort.Sort([b, c], cmp) == if cmp(b, c) <= 0 then [b, c] else [c, b]
  {
    assert [b, c][1..] == [c];
    assert [c][1..] == [];
    assert JsSort.Sort([c], cmp) == [c];
    InsertIntoOne(b, c, cmp);
  }

  /** Sorting three cars is inserting the first into the other two, sorted. */
  lemma SortOfThree(a: Car, b: Car, c: Car, cmp: (Car, Car) -> int)
    ensures JsSort.Sort([a, b, c], cmp) == JsSort.Insert(a, JsSort.Sort([b, c], cmp), cmp)
  {
    assert [a, b, c][1..] == [b, c];
  }

  function YearKey(): Option<SortKey> { Some(CarKey(MakeYearField)) }
  function BrandKey(): Option<SortKey> { Some(CarKey(BrandField)) }
  function DateKey(): Option<SortKey> { Some(CarKey(DatePostedField)) }

  lemma YearsDesc()
    ensures ThreeWayCompare(YearKey(), Desc, civic, camry) == -1
    ensures ThreeWayCompare(YearKey(), Desc, corolla, civic) == 1
    ensures ThreeWayCompare(YearKey(), Desc, corolla, camry) == -1
  {
  }

  lemma YearsAsc()
    ensures ThreeWayCompare(YearKey(), Asc, civic, camry) == 1
    ensures ThreeWayCompare(YearKey(), Asc, corolla, camry) == 1
    ensures ThreeWayCompare(YearKey(), Asc, corolla, civic) == -1
  {
  }

  lemma HondaBeforeToyota() ensures StrLess("Honda", "Toyota") {}
  lemma ToyotaNotBeforeHonda() ensures !StrLess("Toyota", "Honda") {}
  /** Texts that differ only in their last character are ordered by it. */
  lemma SameStemOrder(p: string, x: char, y: char)
    ensures StrLess(p + [x], p + [y]) <==> x < y
  {
    StrLessIrreflexive(p);
    StrLessAppendChar(p, p, x, y);
  }

  /** Descending by a text key puts the greater text first. */
  lemma TextsDesc(f: CarField, a: Car, b: Car, x: string, y: string)
    requires KeyOf(a, CarKey(f)) == Text(x) && KeyOf(b, CarKey(f)) == Text(y)
    requires StrLess(x, y) && !StrLess(y, x)
    ensures ThreeWayCompare(Some(CarKey(f)), Desc, a, b) == 1
  {
  }

  lemma BrandsAsc()
    ensures ThreeWayCompare(BrandKey(), Asc, civic, camry) == -1
    ensures ThreeWayCompare(BrandKey(), Asc, corolla, civic) == 1
    ensures ThreeWayCompare(BrandKey(), Asc, corolla, camry) == 0
  {
    HondaBeforeToyota();
    ToyotaNotBeforeHonda();
    StrLessIrreflexive("Toyota");
  }

  lemma DatesDescCivicCamry() ensures ThreeWayCompare(DateKey(), Desc, civic, camry) == 1
  {
    SameStemOrder(january, '2', '3');
    SameStemOrder(january, '3', '2');
    TextsDesc(DatePostedField, civic, camry, civic.datePosted, camry.datePosted);
  }

  lemma DatesDescCorollaCamry() ensures ThreeWayCompare(DateKey(), Desc, corolla, camry) == 1
  {
    SameStemOrder(january, '1', '3');
    SameStemOrder(january, '3', '1');
    TextsDesc(DatePostedField, corolla, camry, corolla.datePosted, camry.datePosted);
  }

  lemma DatesDescCorollaCivic() ensures ThreeWayCompare(DateKey(), Desc, corolla, civic) == 1
  {
    SameStemOrder(january, '1', '2');
    SameStemOrder(january, '2', '1');
    TextsDesc(DatePostedField, corolla, civic, corolla.datePosted, civic.datePosted);
  }

  /** Relevance (no sort field) returns the cars as given. */
  lemma NullSortKeepsOrder()
    ensures SortedCars(carsMock, None, Desc) == carsMock
  {
    UnsortedWithoutKey(carsMock, None, Desc);
  }

  /** makeYear under the default direction puts 2021 first and 2019 last. */
  lemma MakeYearDescending()
    ensures SortedCars(carsMock, YearKey(), Desc) == [civic, corolla, camry]
  {
    YearsDesc();
    var cmp := ThreeWay(YearKey(), Desc);
    SortOfThree(corolla, civic, camry, cmp);
    SortOfTwo(civic, camry, cmp);
    assert JsSort.Sort([civic, camry], cmp) == [civic, camry];
    InsertIntoTwo(corolla, civic, camry, cmp);
  }

  /** makeYear ascending puts 2019 first and 2021 last. */
  lemma MakeYearAscending()
    ensures SortedCars(carsMock, YearKey(), Asc) == [camry, corolla, civic]
  {
    YearsAsc();
    var cmp := ThreeWay(YearKey(), Asc);
    SortOfThree(corolla, civic, camry, cmp);
    SortOfTwo(civic, camry, cmp);
    assert JsSort.Sort([civic, camry], cmp) == [camry, civic];
    InsertIntoTwo(corolla, camry, civic, cmp);
  }

  /** brand ascending puts the Honda first; the two Toyotas keep their order. */
  lemma BrandAscending()
    ensures SortedCars(carsMock, BrandKey(), Asc) == [civic, corolla, camry]
  {
    BrandsAsc();
    var cmp := ThreeWay(BrandKey(), Asc);
    SortOfThree(corolla, civic, camry, cmp);
    SortOfTwo(civic, camry, cmp);
    assert JsSort.Sort([civic, camry], cmp) == [civic, camry];
    InsertIntoTwo(corolla, civic, camry, cmp);
  }

  /** datePosted under the default direction puts the newest post first. */
  lemma DatePostedDescending()
    ensures SortedCars(carsMock, DateKey(), Desc) == [camry, civic, corolla]
  {
    DatesDescCivicCamry(); DatesDescCorollaCamry(); DatesDescCorollaCivic();
    var cmp := ThreeWay(DateKey(), Desc);
    SortOfThree(corolla, civic, camry, cmp);
    SortOfTwo(civic, camry, cmp);
    assert JsSort.Sort([civic, camry], cmp) == [camry, civic];
    InsertIntoTwo(corolla, camry, civic, cmp);
  }

  /** A name that is not a field of `Car` leaves the cars as given. */
  lemma UnknownFieldKeepsOrder()
    ensures SortedCars(carsMock, Some(NotACarField), Desc) == carsMock
  {
    UnsortedWithoutKey(carsMock, Some(NotACarField), Desc);
  }
}
