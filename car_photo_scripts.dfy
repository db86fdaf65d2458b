/**
 * The photo loops of populate-db-images.js and update-db.js: each car's
 * `photoUrl` becomes the image found for its brand, searched once per brand
 * (with the first car of that brand) and cached; a search that finds
 * nothing gives 'http://default-image-url.com'.
 */
module CarPhotoScripts {

  import opened Wrappers
  import opened CarEntity
  import opened DbJson
  import Seqs

  /** The index of the first car of the brand from `k` on. */
  function FirstOfBrand(cars: seq<Car>, brand: string, k: nat): (r: Option<nat>)
    requires k <= |cars|
    ensures r.Some? ==> k <= r.value < |cars| && cars[r.value].brand == brand
    decreases |cars| - k
  {
    if k == |cars| then None
    else if cars[k].brand == brand then Some(k)
    else FirstOfBrand(cars, brand, k + 1)
  }

  /** No car before the first of the brand has the brand, and there is none
      exactly when no car from `k` on has it. */
  lemma {:induction false} FirstOfBrandMeaning(cars: seq<Car>, brand: string, k: nat)
    requires k <= |cars|
    ensures var r := FirstOfBrand(cars, brand, k);
      (r.None? <==> forall j :: k <= j < |cars| ==> cars[j].brand != brand) &&
      (r.Some? ==> forall j :: k <= j < r.value ==> cars[j].brand != brand)
    decreases |cars| - k
  {
    if k < |cars| && cars[k].brand != brand {
      FirstOfBrandMeaning(cars, brand, k + 1);
    }
  }

  /** The photo every car of the brand receives. */
  function BrandPhoto(cars: seq<Car>, brand: string, fetch: string -> Option<string>, query: Car -> string): (u: string)
    ensures u != ""
  {
    var first := FirstOfBrand(cars, brand, 0);
    if first.None? then DefaultImageUrl else FetchedOr(fetch(query(cars[first.value])), DefaultImageUrl)
  }

  /** The cars after the loop. */
  function PhotosAssigned(cars: seq<Car>, fetch: string -> Option<string>, query: Car -> string): (r: seq<Car>)
    ensures |r| == |cars|
    ensures forall i :: 0 <= i < |cars| ==> r[i] == cars[i].(photoUrl := BrandPhoto(cars, cars[i].brand, fetch, query))
  {
    seq(|cars|, i requires 0 <= i < |cars| => cars[i].(photoUrl := BrandPhoto(cars, cars[i].brand, fetch, query)))
  }

  /** populate-db-images.js searches for `${brand} ${model}`. */
  function BrandAndModelQuery(c: Car): string { c.brand + " " + c.model }

  /** update-db.js searches for the brand alone. */
  function BrandQuery(c: Car): string { c.brand }

  /** Only the photos change; cars of one brand share their photo; no photo
      is empty; and the photo is what the search for the brand's first car
      found, or the default. */
  lemma PhotosAssignedMeaning(cars: seq<Car>, fetch: string -> Option<string>, query: Car -> string, i: int, j: int)
    requires 0 <= i < |cars| && 0 <= j < |cars|
    ensures var r := PhotosAssigned(cars, fetch, query);
      r[i] == cars[i].(photoUrl := r[i].photoUrl) && r[i].photoUrl != "" &&
      (cars[i].brand == cars[j].brand ==> r[i].photoUrl == r[j].photoUrl) &&
      exists k :: 0 <= k <= i && cars[k].brand == cars[i].brand &&
        (forall m :: 0 <= m < k ==> cars[m].brand != cars[i].brand) &&
        r[i].photoUrl == FetchedOr(fetch(query(cars[k])), DefaultImageUrl)
  {
    FirstOfBrandMeaning(cars, cars[i].brand, 0);
    var k := FirstOfBrand(cars, cars[i].brand, 0).value;
    assert k <= i;
  }

  /** A brand first met at `i` gets the image searched for with `cars[i]`. */
  lemma FirstOfBrandPhoto(cars: seq<Car>, i: int, fetch: string -> Option<string>, query: Car -> string)
    requires 0 <= i < |cars| && forall j :: 0 <= j < i ==> cars[j].brand != cars[i].brand
    ensures BrandPhoto(cars, cars[i].brand, fetch, query) == FetchedOr(fetch(query(cars[i])), DefaultImageUrl)
  {
    FirstOfBrandMeaning(cars, cars[i].brand, 0);
    var r := FirstOfBrand(cars, cars[i].brand, 0);
    assert r.Some? && r.value == i;
  }

  /** A brand is looked up, and searched for when missing, with this car. */
  predicate Searches(cache: map<string, string>, c: Car)
  {
    !(c.brand in cache && cache[c.brand] != "")
  }

  /** The loop's own state: the brand cache and the brands searched so far. */
  datatype Lookups = Lookups(cache: map<string, string>, searched: seq<string>)

  /** What the loop does with one car's brand. */
  function Step(st: Lookups, c: Car, fetch: string -> Option<string>, query: Car -> string): Lookups
  {
    if Searches(st.cache, c) then
      Lookups(st.cache[c.brand := FetchedOr(fetch(query(c)), DefaultImageUrl)], st.searched + [c.brand])
    else st
  }

  /** The loop's state after the first `i` cars. */
  ghost function After(cars: seq<Car>, i: nat, fetch: string -> Option<string>, query: Car -> string): Lookups
    requires i <= |cars|
  {
    if i == 0 then Lookups(map[], []) else Step(After(cars, i - 1, fetch, query), cars[i - 1], fetch, query)
  }

  /** Every searched brand is cached, once, with a non-empty photo. */
  ghost predicate Consistent(st: Lookups)
  {
    Seqs.NoDuplicates(st.searched) &&
    (forall b :: b in st.searched <==> b in st.cache) &&
    (forall b :: b in st.cache ==> st.cache[b] != "")
  }

  /** One step keeps the state consistent, caches the car's brand and keeps
      every photo already cached. */
  lemma StepKeeps(st: Lookups, c: Car, fetch: string -> Option<string>, query: Car -> string)
    requires Consistent(st)
    ensures var next := Step(st, c, fetch, query);
      Consistent(next) && next.cache.Keys == st.cache.Keys + {c.brand} &&
      (forall b :: b in st.cache ==> next.cache[b] == st.cache[b]) &&
      (c.brand !in st.cache ==> next.cache[c.brand] == FetchedOr(fetch(query(c)), DefaultImageUrl))
  {
    if Searches(st.cache, c) {
      Seqs.NoDuplicatesSnoc(st.searched, c.brand);
    }
  }

  /** The state stays consistent. */
  lemma {:induction false} AfterConsistent(cars: seq<Car>, i: nat, fetch: string -> Option<string>, query: Car -> string)
    requires i <= |cars|
    ensures Consistent(After(cars, i, fetch, query))
  {
    if i > 0 {
      AfterConsistent(cars, i - 1, fetch, query);
      StepKeeps(After(cars, i - 1, fetch, query), cars[i - 1], fetch, query);
    }
  }

  /** After `i` cars the cache holds exactly the brands of those cars. */
  lemma {:induction false} AfterKeys(cars: seq<Car>, i: nat, fetch: string -> Option<string>, query: Car -> string)
    requires i <= |cars|
    ensures forall b :: b in After(cars, i, fetch, query).cache <==> exists j :: 0 <= j < i && cars[j].brand == b
  {
    if i > 0 {
      AfterKeys(cars, i - 1, fetch, query);
      AfterConsistent(cars, i - 1, fetch, query);
      var prev := After(cars, i - 1, fetch, query);
      StepKeeps(prev, cars[i - 1], fetch, query);
      var cache := After(cars, i, fetch, query).cache;
      assert cache.Keys == prev.cache.Keys + {cars[i - 1].brand};
      forall b ensures b in cache <==> exists j :: 0 <= j < i && cars[j].brand == b {
        if b in prev.cache {
          var j :| 0 <= j < i - 1 && cars[j].brand == b;
          assert 0 <= j < i;
        }
        if b !in prev.cache && b in cache {
          assert cars[i - 1].brand == b;
        }
      }
    }
  }

  /** Each cached brand holds its brand photo. */
  lemma {:induction false} AfterValues(cars: seq<Car>, i: nat, fetch: string -> Option<string>, query: Car -> string)
    requires i <= |cars|
    ensures var cache := After(cars, i, fetch, query).cache;
      forall b :: b in cache ==> cache[b] == BrandPhoto(cars, b, fetch, query)
  {
    if i > 0 {
      AfterValues(cars, i - 1, fetch, query);
      AfterConsistent(cars, i - 1, fetch, query);
      var prev := After(cars, i - 1, fetch, query);
      var c := cars[i - 1];
      StepKeeps(prev, c, fetch, query);
      if c.brand !in prev.cache {
        AfterKeys(cars, i - 1, fetch, query);
        FirstOfBrandPhoto(cars, i - 1, fetch, query);
      }
    }
  }

  /** After car `i` its brand is cached with the brand photo. */
  lemma AfterPhoto(cars: seq<Car>, i: nat, fetch: string -> Option<string>, query: Car -> string)
    requires i < |cars|
    ensures var cache := After(cars, i + 1, fetch, query).cache;
      cars[i].brand in cache && cache[cars[i].brand] == BrandPhoto(cars, cars[i].brand, fetch, query)
  {
    AfterKeys(cars, i + 1, fetch, query);
    AfterValues(cars, i + 1, fetch, query);
  }

  /** After `i` cars the state is consistent and the cache holds exactly the
      brands of those cars, each with its brand photo. */
  lemma AfterMeaning(cars: seq<Car>, i: nat, fetch: string -> Option<string>, query: Car -> string)
    requires i <= |cars|
    ensures var st := After(cars, i, fetch, query);
      Consistent(st) &&
      (forall b :: b in st.cache <==> exists j :: 0 <= j < i && cars[j].brand == b) &&
      (forall b :: b in st.cache ==> st.cache[b] == BrandPhoto(cars, b, fetch, query))
  {
    AfterConsistent(cars, i, fetch, query);
    AfterKeys(cars, i, fetch, query);
    AfterValues(cars, i, fetch, query);
  }

  /** The body of the loop for one car: the brand is searched for when the
      cache has no truthy entry, and the car's photo is the cached one. */
  method LookUpBrand(car: Car, brandCache: map<string, string>, searched: seq<string>,
                     fetch: string -> Option<string>, query: Car -> string)
    returns (photoUrl: string, nextCache: map<string, string>, nextSearched: seq<string>)
    ensures Lookups(nextCache, nextSearched) == Step(Lookups(brandCache, searched), car, fetch, query)
    ensures car.brand in nextCache && photoUrl == nextCache[car.brand]
  {
    nextCache, nextSearched := brandCache, searched;
    if !(car.brand in nextCache && nextCache[car.brand] != "") {
      var imageUrl := fetch(query(car));
      nextCache := nextCache[car.brand := FetchedOr(imageUrl, DefaultImageUrl)];
      nextSearched := nextSearched + [car.brand];
    }
    photoUrl := nextCache[car.brand];
  }

  /** The loop of `updateDbJson`, in place on the cars: a brand is searched
      when the cache has no (truthy) entry for it, and every car gets the
      cached image. It returns the brands it searched for, in order: each
      brand of the cars exactly once. */
  method AssignBrandPhotos(cars: array<Car>, fetch: string -> Option<string>, query: Car -> string)
    returns (searched: seq<string>)
    modifies cars
    ensures cars[..] == PhotosAssigned(old(cars[..]), fetch, query)
    ensures Seqs.NoDuplicates(searched)
    ensures forall b :: b in searched <==> exists j :: 0 <= j < cars.Length && old(cars[j]).brand == b
  {
    ghost var orig := cars[..];
    ghost var target := PhotosAssigned(orig, fetch, query);
    var brandCache: map<string, string> := map[];
    searched := [];
    var i := 0;
    while i < cars.Length
      invariant 0 <= i <= cars.Length
      invariant cars[i..] == orig[i..]
      invariant forall j :: 0 <= j < i ==> cars[j] == target[j]
      invariant Lookups(brandCache, searched) == After(orig, i, fetch, query)
    {
      var car := cars[i];
      assert car == orig[i];
      ghost var before := cars[..];
      var photoUrl;
      photoUrl, brandCache, searched := LookUpBrand(car, brandCache, searched, fetch, query);
      AfterPhoto(orig, i, fetch, query);
      cars[i] := car.(photoUrl := photoUrl);
      assert cars[i + 1..] == before[i + 1..];
      i := i + 1;
    }
    AfterMeaning(orig, i, fetch, query);
  }

  /** The cars of a list, in a fresh array the loop can update. */
  method ToArray(s: seq<Car>) returns (a: array<Car>)
    ensures fresh(a) && a[..] == s
  {
    a := new Car[|s|](i requires 0 <= i < |s| => s[i]);
  }

  /** populate-db-images.js: an unreadable, empty or malformed file is left
      unwritten; otherwise `carsPosted` (or `[]`) gets its photos and every
      other key is written back as it was. */
  method PopulateDbImages(file: ReadResult, fetch: string -> Option<string>) returns (written: Option<Db>)
    ensures file.Unreadable? ==> written.None?
    ensures file.Parsed? ==>
      written == Some(file.db.(carsPosted := Some(PhotosAssigned(file.db.carsPosted.GetOr([]), fetch, BrandAndModelQuery))))
  {
    if file.Unreadable? {
      return None;
    }
    var db := file.db;
    var cars := ToArray(db.carsPosted.GetOr([]));
    var _ := AssignBrandPhotos(cars, fetch, BrandAndModelQuery);
    written := Some(db.(carsPosted := Some(cars[..])));
  }

  /** update-db.js: a file that cannot be used counts as `{cars: []}`; a
      parsed file without `cars` stops the script before it writes (the loop
      over `undefined` throws); otherwise only `{cars}` is written, every
      other key dropped. */
  method UpdateDb(file: ReadResult, fetch: string -> Option<string>) returns (written: Option<Db>)
    ensures file.Unreadable? ==> written == Some(Db(None, Some([]), None, map[]))
    ensures file.Parsed? && file.db.cars.None? ==> written.None?
    ensures file.Parsed? && file.db.cars.Some? ==>
      written == Some(Db(None, Some(PhotosAssigned(file.db.cars.value, fetch, BrandQuery)), None, map[]))
  {
    var db := if file.Unreadable? then Db(None, Some([]), None, map[]) else file.db;
    if db.cars.None? {
      return None;
    }
    var cars := ToArray(db.cars.value);
    var _ := AssignBrandPhotos(cars, fetch, BrandQuery);
    written := Some(Db(None, Some(cars[..]), None, map[]));
  }
}
