/**
 * Sort keys of a car and the two comparators the listing hooks pass to
 * `Array.prototype.sort`.
 */
module CarSortKeys {

  import opened Wrappers
  import opened CarEntity
  import opened JsText
  import JsSort

  datatype SortDirection = Asc | Desc

  /** The field a hook is asked to sort by. The hooks type it as `keyof Car`
      but do not check it, so a name that is not a key of `Car` can arrive. */
  datatype SortKey = CarKey(field: CarField) | NotACarField

  /** `SortField` of the older hooks: 'datePosted', 'makeYear' or null. */
  datatype SortField = DatePosted | MakeYear

  /** The key of `Car` a sort field names. */
  function FieldKey(s: Option<SortField>): (k: Option<SortKey>)
    ensures k.None? <==> s.None?
    ensures k.Some? ==> k.value.CarKey?
  {
    match s
    case None => None
    case Some(DatePosted) => Some(CarKey(DatePostedField))
    case Some(MakeYear) => Some(CarKey(MakeYearField))
  }

  /** The key a name picks out: a field of `Car` by its name, or a name
      that is not one. */
  function KeyNamed(name: string): (k: SortKey)
    ensures k.CarKey? ==> FieldName(k.field) == name
  {
    if name == "id" then CarKey(IdField)
    else if name == "userId" then CarKey(UserIdField)
    else if name == "brand" then CarKey(BrandField)
    else if name == "model" then CarKey(ModelField)
    else if name == "gearbox" then CarKey(GearboxField)
    else if name == "color" then CarKey(ColorField)
    else if name == "makeYear" then CarKey(MakeYearField)
    else if name == "datePosted" then CarKey(DatePostedField)
    else if name == "photoUrl" then CarKey(PhotoUrlField)
    else NotACarField
  }

  lemma KeyNamedFieldName(f: CarField)
    ensures KeyNamed(FieldName(f)) == CarKey(f)
  {
  }

  /** The value `car[key]`: a string, a number, or `undefined`. */
  datatype KeyValue = Text(text: string) | Number(number: int) | Undefined

  function KeyOf(c: Car, k: SortKey): KeyValue
  {
    match k
    case NotACarField => Undefined
    case CarKey(f) =>
      match f
      case IdField => Text(c.id)
      case UserIdField => Text(c.userId)
      case BrandField => Text(c.brand)
      case ModelField => Text(c.model)
      case GearboxField => Text(GearboxName(c.gearbox))
      case ColorField => Text(c.color)
      case MakeYearField => Number(c.makeYear)
      case DatePostedField => Text(c.datePosted)
      case PhotoUrlField => Text(c.photoUrl)
  }

  /** JavaScript `x < y`: strings by character order, numbers by value, and
      false whenever `undefined` takes part. */
  predicate KeyLess(x: KeyValue, y: KeyValue)
  {
    match (x, y)
    case (Text(a), Text(b)) => StrLess(a, b)
    case (Number(a), Number(b)) => a < b
    case _ => false
  }

  /** Two keys of the same kind, which every key of `Car` gives for any two cars. */
  predicate Comparable(x: KeyValue, y: KeyValue)
  {
    (x.Text? && y.Text?) || (x.Number? && y.Number?)
  }

  lemma FieldKeysComparable(a: Car, b: Car, f: CarField)
    ensures Comparable(KeyOf(a, CarKey(f)), KeyOf(b, CarKey(f)))
  {
  }

  /** `<` on comparable keys is a strict total order. */
  lemma KeyLessOrder(x: KeyValue, y: KeyValue, z: KeyValue)
    requires Comparable(x, y) && Comparable(y, z)
    ensures !KeyLess(x, x)
    ensures x == y || KeyLess(x, y) || KeyLess(y, x)
    ensures !(KeyLess(x, y) && KeyLess(y, x))
    ensures KeyLess(x, y) && KeyLess(y, z) ==> KeyLess(x, z)
  {
    if x.Text? {
      StrLessIrreflexive(x.text);
      StrLessTrichotomy(x.text, y.text);
      if KeyLess(x, y) && KeyLess(y, z) { StrLessTransitive(x.text, y.text, z.text); }
    }
  }

  /** `dir === 'asc' ? 'desc' : 'asc'` */
  function Flipped(dir: SortDirection): (r: SortDirection)
    ensures r != dir
  {
    if dir == Asc then Desc else Asc
  }

  lemma FlippedTwice(dir: SortDirection)
    ensures Flipped(Flipped(dir)) == dir
  {
  }

  function Multiplier(dir: SortDirection): int
  {
    if dir == Asc then 1 else -1
  }

  /** The comparator of src/viewmodel/handling/viewCars/useCarSorting.ts:
      0 without a sort key or when either value is `undefined`, otherwise the
      direction's sign when `a` is greater, its opposite when smaller, and 0
      on equal keys. */
  function ThreeWayCompare(sortBy: Option<SortKey>, dir: SortDirection, a: Car, b: Car): int
  {
    if sortBy.None? then 0
    else
      var x, y := KeyOf(a, sortBy.value), KeyOf(b, sortBy.value);
      if x.Undefined? || y.Undefined? then 0
      else if KeyLess(y, x) then Multiplier(dir)
      else if KeyLess(x, y) then -Multiplier(dir)
      else 0
  }

  /** The comparator of src/viewmodel/handling/useCarSorting.ts (and of the
      combined hooks): 0 without a sort key, otherwise the direction's sign
      when `a[sortBy] > b[sortBy]` and its opposite in every other case, ties
      included. */
  function TwoWayCompare(sortBy: Option<SortKey>, dir: SortDirection, a: Car, b: Car): int
  {
    if sortBy.None? then 0
    else if KeyLess(KeyOf(b, sortBy.value), KeyOf(a, sortBy.value)) then Multiplier(dir)
    else -Multiplier(dir)
  }

  function ThreeWay(sortBy: Option<SortKey>, dir: SortDirection): (Car, Car) -> int
  {
    (a: Car, b: Car) => ThreeWayCompare(sortBy, dir, a, b)
  }

  function TwoWay(sortBy: Option<SortKey>, dir: SortDirection): (Car, Car) -> int
  {
    (a: Car, b: Car) => TwoWayCompare(sortBy, dir, a, b)
  }

  /** `x` may come before `y` in the given direction: ascending means
      `x <= y`, descending `x >= y`. */
  predicate InDirection(dir: SortDirection, x: KeyValue, y: KeyValue)
  {
    if dir == Asc then !KeyLess(y, x) else !KeyLess(x, y)
  }

  /** For a key of `Car` the three-way comparator says "not after" exactly
      when the two keys are in the requested direction. */
  lemma ThreeWayMeaning(f: CarField, dir: SortDirection, a: Car, b: Car)
    ensures ThreeWayCompare(Some(CarKey(f)), dir, a, b) <= 0 <==> InDirection(dir, KeyOf(a, CarKey(f)), KeyOf(b, CarKey(f)))
    ensures KeyOf(a, CarKey(f)) == KeyOf(b, CarKey(f)) ==> ThreeWayCompare(Some(CarKey(f)), dir, a, b) == 0
  {
    var x, y := KeyOf(a, CarKey(f)), KeyOf(b, CarKey(f));
    KeyLessOrder(x, y, x);
  }

  /** The three-way comparator is a total preorder on any list of cars, so
      the engine sorts with it. */
  lemma ThreeWayIsPreorder(sortBy: Option<SortKey>, dir: SortDirection, s: seq<Car>)
    ensures JsSort.TotalOn(s, ThreeWay(sortBy, dir))
    ensures JsSort.TransitiveOn(s, ThreeWay(sortBy, dir))
  {
    var cmp := ThreeWay(sortBy, dir);
    if sortBy.Some? && sortBy.value.CarKey? {
      var f := sortBy.value.field;
      forall a, b | a in s && b in s ensures cmp(a, b) <= 0 || cmp(b, a) <= 0 {
        ThreeWayMeaning(f, dir, a, b);
        ThreeWayMeaning(f, dir, b, a);
        KeyLessOrder(KeyOf(a, CarKey(f)), KeyOf(b, CarKey(f)), KeyOf(a, CarKey(f)));
      }
      forall a, b, c | a in s && b in s && c in s && cmp(a, b) <= 0 && cmp(b, c) <= 0 ensures cmp(a, c) <= 0 {
        ThreeWayMeaning(f, dir, a, b);
        ThreeWayMeaning(f, dir, b, c);
        ThreeWayMeaning(f, dir, a, c);
        var x, y, z := KeyOf(a, CarKey(f)), KeyOf(b, CarKey(f)), KeyOf(c, CarKey(f));
        KeyLessOrder(x, y, z);
        KeyLessOrder(z, y, x);
        KeyLessOrder(x, z, y);
        KeyLessOrder(y, x, z);
      }
    }
  }

  /** On cars with different keys the two comparators give the same answer. */
  lemma TwoWayAgreesOnDistinctKeys(f: CarField, dir: SortDirection, a: Car, b: Car)
    requires KeyOf(a, CarKey(f)) != KeyOf(b, CarKey(f))
    ensures TwoWayCompare(Some(CarKey(f)), dir, a, b) == ThreeWayCompare(Some(CarKey(f)), dir, a, b)
  {
    var x, y := KeyOf(a, CarKey(f)), KeyOf(b, CarKey(f));
    KeyLessOrder(x, y, x);
  }
}
