/**
 * The option lists the filter hooks derive from the fetched cars:
 * `[...new Set(cars?.map(field) ?? [])]` for brands, models, gearboxes and
 * colors, and in the older hooks the distinct make years sorted with the
 * default `Array.prototype.sort` order.
 */
module CarOptions {

  import opened Wrappers
  import opened CarEntity
  import opened JsText
  import Seqs
  import JsSort

  /** `cars ?? []`: the cars, or none while they are not loaded. */
  function CarsOrEmpty(cars: Option<seq<Car>>): seq<Car>
  {
    cars.GetOr([])
  }

  /** `[...new Set(cars?.map(f) ?? [])]` */
  function Options<T(==,!new)>(cars: Option<seq<Car>>, f: Car -> T): (r: seq<T>)
    ensures Seqs.NoDuplicates(r)
    ensures forall x :: x in r <==> exists i :: 0 <= i < |CarsOrEmpty(cars)| && f(CarsOrEmpty(cars)[i]) == x
  {
    var values := Seqs.Map(CarsOrEmpty(cars), f);
    assert forall x :: x in values <==> exists i :: 0 <= i < |CarsOrEmpty(cars)| && f(CarsOrEmpty(cars)[i]) == x;
    Seqs.Distinct(values)
  }

  /** A `Set` iterates in insertion order, so the options list each value
      where it first occurs among the cars. */
  lemma OptionsInFirstOccurrenceOrder<T(!new)>(cars: Option<seq<Car>>, f: Car -> T)
    ensures var values := Seqs.Map(CarsOrEmpty(cars), f);
      forall i, j :: 0 <= i < j < |Options(cars, f)| ==>
        Seqs.FirstIndex(values, Options(cars, f)[i]) < Seqs.FirstIndex(values, Options(cars, f)[j])
  {
    Seqs.DistinctInFirstOccurrenceOrder(Seqs.Map(CarsOrEmpty(cars), f));
  }

  function BrandOf(c: Car): string { c.brand }
  function ModelOf(c: Car): string { c.model }
  function GearboxOf(c: Car): string { GearboxName(c.gearbox) }
  function ColorOf(c: Car): string { c.color }
  function YearOf(c: Car): int { c.makeYear }

  function IsBrand(brand: string): Car -> bool
  {
    (c: Car) => c.brand == brand
  }

  function BrandOptions(cars: Option<seq<Car>>): seq<string> { Options(cars, BrandOf) }
  function GearboxOptions(cars: Option<seq<Car>>): seq<string> { Options(cars, GearboxOf) }
  function ColorOptions(cars: Option<seq<Car>>): seq<string> { Options(cars, ColorOf) }

  /** The models on offer: those of the chosen brand when a brand is chosen
      (a truthy filter), otherwise all of them. */
  function ModelOptions(cars: Option<seq<Car>>, brand: string): (r: seq<string>)
    ensures Seqs.NoDuplicates(r)
  {
    Options(if Truthy(brand) then Some(Seqs.Filter(CarsOrEmpty(cars), IsBrand(brand))) else cars, ModelOf)
  }

  /** A value is offered exactly when some car has it. */
  lemma OptionsMember<T(!new)>(cars: seq<Car>, f: Car -> T, x: T)
    ensures x in Options(Some(cars), f) <==> exists c :: c in cars && f(c) == x
  {
    if x in Options(Some(cars), f) {
      var i :| 0 <= i < |cars| && f(cars[i]) == x;
      assert cars[i] in cars;
    }
    if exists c :: c in cars && f(c) == x {
      var c :| c in cars && f(c) == x;
      var i :| 0 <= i < |cars| && cars[i] == c;
      assert f(cars[i]) == x;
    }
  }

  /** A model is offered exactly when some car has it, and, with a brand
      chosen, that car is of the brand. */
  lemma ModelOptionsMeaning(cars: Option<seq<Car>>, brand: string, m: string)
    ensures m in ModelOptions(cars, brand) <==>
      exists c :: c in CarsOrEmpty(cars) && c.model == m && (Truthy(brand) ==> c.brand == brand)
  {
    var all := CarsOrEmpty(cars);
    if Truthy(brand) {
      var mine := Seqs.Filter(all, IsBrand(brand));
      OptionsMember(mine, ModelOf, m);
      if exists c :: c in all && c.model == m && c.brand == brand {
        var c :| c in all && c.model == m && c.brand == brand;
        assert c in mine && ModelOf(c) == m;
      }
    } else {
      OptionsMember(all, ModelOf, m);
      assert Options(cars, ModelOf) == Options(Some(all), ModelOf);
      if exists c :: c in all && c.model == m {
        var c :| c in all && c.model == m;
        assert ModelOf(c) == m;
      }
    }
  }

  /** The option lists a filter hook offers its pickers. */
  datatype FilterOptions = FilterOptions(
    brandOptions: seq<string>,
    modelOptions: seq<string>,
    gearboxOptions: seq<string>,
    colorOptions: seq<string>,
    yearOptions: seq<int>)

  /** `Array.prototype.sort` without a comparator: both values are turned
      into strings and ordered by their characters. */
  function DefaultCompare(a: int, b: int): int
  {
    var x, y := IntToString(a), IntToString(b);
    if StrLess(x, y) then -1 else if StrLess(y, x) then 1 else 0
  }

  lemma DefaultCompareIsPreorder(s: seq<int>)
    ensures JsSort.TotalOn(s, DefaultCompare)
    ensures JsSort.TransitiveOn(s, DefaultCompare)
  {
    forall a, b | a in s && b in s ensures DefaultCompare(a, b) <= 0 || DefaultCompare(b, a) <= 0 {
      StrLessTrichotomy(IntToString(a), IntToString(b));
    }
    forall a, b, c | a in s && b in s && c in s && DefaultCompare(a, b) <= 0 && DefaultCompare(b, c) <= 0
      ensures DefaultCompare(a, c) <= 0
    {
      var x, y, z := IntToString(a), IntToString(b), IntToString(c);
      StrLessTrichotomy(x, y);
      StrLessTrichotomy(y, z);
      StrLessTrichotomy(x, z);
      if StrLess(z, x) {
        if StrLess(y, x) { } else if x == y { } else { StrLessTransitive(z, x, y); }
      }
    }
  }

  /** `[...new Set(cars?.map(car => car.makeYear) ?? [])].sort()` */
  function YearOptionsOfCars(cars: Option<seq<Car>>): (r: seq<int>)
    ensures multiset(r) == multiset(Options(cars, YearOf))
  {
    JsSort.SortPermutes(Options(cars, YearOf), DefaultCompare);
    JsSort.Sort(Options(cars, YearOf), DefaultCompare)
  }

  /** The year options are the distinct make years, each once, with their
      decimal texts in strictly increasing string order. */
  lemma YearOptionsOfCarsMeaning(cars: Option<seq<Car>>)
    ensures var r := YearOptionsOfCars(cars);
      Seqs.NoDuplicates(r) &&
      (forall y :: y in r <==> exists i :: 0 <= i < |CarsOrEmpty(cars)| && CarsOrEmpty(cars)[i].makeYear == y) &&
      (forall i, j :: 0 <= i < j < |r| ==> StrLess(IntToString(r[i]), IntToString(r[j])))
  {
    var years := Options(cars, YearOf);
    var r := YearOptionsOfCars(cars);
    Seqs.PermutationNoDuplicates(years, r);
    forall y ensures y in r <==> y in years {
      assert y in r <==> y in multiset(r);
      assert y in years <==> y in multiset(years);
    }
    DefaultCompareIsPreorder(years);
    JsSort.SortSorted(years, DefaultCompare);
    forall i, j | 0 <= i < j < |r| ensures StrLess(IntToString(r[i]), IntToString(r[j])) {
      assert DefaultCompare(r[i], r[j]) <= 0;
      IntToStringInjective(r[i], r[j]);
      StrLessTrichotomy(IntToString(r[i]), IntToString(r[j]));
    }
  }

  lemma FourDigits(y: int)
    requires 1000 <= y <= 9999
    ensures y >= 0 && DigitCount(y) == 4
  {
    assert DigitCount(y / 1000) == 1;
    assert y / 10 / 10 == y / 100 && y / 100 / 10 == y / 1000;
  }

  /** For four-digit years the string order of their texts is numeric order. */
  lemma FourDigitTextOrder(a: int, b: int)
    requires 1000 <= a <= 9999 && 1000 <= b <= 9999
    ensures StrLess(IntToString(a), IntToString(b)) <==> a < b
  {
    FourDigits(a);
    FourDigits(b);
    StrLessMatchesNumericOrder(a, b);
  }

  /** String order is numeric order for four-digit years, so for such years
      the options are ascending. */
  lemma FourDigitYearOptionsAscending(cars: Option<seq<Car>>)
    requires forall c :: c in CarsOrEmpty(cars) ==> 1000 <= c.makeYear <= 9999
    ensures var r := YearOptionsOfCars(cars);
      forall i, j :: 0 <= i < j < |r| ==> r[i] < r[j]
  {
    var all := CarsOrEmpty(cars);
    var r := YearOptionsOfCars(cars);
    YearOptionsOfCarsMeaning(cars);
    forall k | 0 <= k < |r| ensures 1000 <= r[k] <= 9999 {
      assert r[k] in r;
      var p :| 0 <= p < |all| && all[p].makeYear == r[k];
      assert all[p] in all;
    }
    forall i, j | 0 <= i < j < |r| ensures r[i] < r[j] {
      FourDigitTextOrder(r[i], r[j]);
    }
  }
}
