/**
 * populate-db-supported-car-images.js: the brand and model images of the
 * catalogue in `db.json` are searched for where they are missing or still a
 * default, with one cache of brand images and one of model images shared by
 * the whole run. A model given as a bare name becomes an object with its
 * image.
 */
module SupportedCarImages {

  import opened Wrappers
  import opened JsText
  import opened DbJson

  /** The text a model stands for in queries and keys, `modelObj.name ||
      modelObj`: an object without a name turns into '[object Object]'. */
  function ModelText(m: ModelEntry): (t: string)
    ensures m.NameOnly? ==> t == m.name
    ensures m.ModelObject? && m.name != "" ==> t == m.name
  {
    match m
    case NameOnly(s) => s
    case ModelObject(n, _) => if n != "" then n else "[object Object]"
  }

  /** The model cache key `${brand}_${model}`. */
  function ModelKey(brand: string, m: ModelEntry): string
  {
    brand + "_" + ModelText(m)
  }

  /** A truthy cache entry. */
  predicate Cached(cache: map<string, string>, key: string)
  {
    key in cache && cache[key] != ""
  }

  /** An object whose image is set and still contains 'default'. */
  predicate HasDefaultImage(m: ModelEntry)
  {
    m.ModelObject? && m.image != "" && Includes(m.image, "default")
  }

  /** The condition under which a model image is searched for. */
  predicate NeedsImage(brand: string, m: ModelEntry, cache: map<string, string>)
  {
    HasDefaultImage(m) || (m.NameOnly? && !Cached(cache, ModelKey(brand, m)))
  }

  /** The image a model search yields: `modelImageUrl || default`. */
  function ModelImage(brand: string, m: ModelEntry, fetch: string -> Option<string>): (u: string)
    ensures u != ""
  {
    FetchedOr(fetch(brand + " " + ModelText(m)), DefaultModelImageUrl)
  }

  /** One model: searched for when it needs an image, the result cached
      under its key and stored on the model, a bare name becoming an
      object; otherwise left as it is. */
  function ModelStep(brand: string, m: ModelEntry, cache: map<string, string>, fetch: string -> Option<string>)
    : (r: (ModelEntry, map<string, string>))
  {
    if NeedsImage(brand, m, cache) then
      var url := ModelImage(brand, m, fetch);
      (if m.NameOnly? then ModelObject(ModelText(m), url) else m.(image := url),
       cache[ModelKey(brand, m) := url])
    else (m, cache)
  }

  /** The models of a brand so far, and the model cache. */
  datatype ModelPass = ModelPass(models: seq<ModelEntry>, cache: map<string, string>)

  /** The state after the first `i` models of the brand. */
  function ModelsAfter(brand: string, models: seq<ModelEntry>, i: nat, cache: map<string, string>,
                       fetch: string -> Option<string>): (r: ModelPass)
    requires i <= |models|
    ensures |r.models| == i
  {
    if i == 0 then ModelPass([], cache) else
      var p := ModelsAfter(brand, models, i - 1, cache, fetch);
      var step := ModelStep(brand, models[i - 1], p.cache, fetch);
      ModelPass(p.models + [step.0], step.1)
  }

  /** All the models of a brand. */
  function ProcessModels(brand: string, models: seq<ModelEntry>, cache: map<string, string>,
                         fetch: string -> Option<string>): ModelPass
  {
    ModelsAfter(brand, models, |models|, cache, fetch)
  }

  /** Later models never change an earlier one. */
  lemma {:induction false} ModelsAfterPrefix(brand: string, models: seq<ModelEntry>, i: nat, j: nat,
                                             cache: map<string, string>, fetch: string -> Option<string>)
    requires j < i <= |models|
    ensures ModelsAfter(brand, models, i, cache, fetch).models[j] == ModelsAfter(brand, models, j + 1, cache, fetch).models[j]
  {
    if i > j + 1 {
      ModelsAfterPrefix(brand, models, i - 1, j, cache, fetch);
    }
  }

  /** A truthy cache entry stays truthy. */
  lemma {:induction false} ModelsAfterKeepsCached(brand: string, models: seq<ModelEntry>, i: nat, j: nat,
                                                  cache: map<string, string>, fetch: string -> Option<string>, key: string)
    requires j <= i <= |models|
    requires Cached(ModelsAfter(brand, models, j, cache, fetch).cache, key)
    ensures Cached(ModelsAfter(brand, models, i, cache, fetch).cache, key)
  {
    if i > j {
      ModelsAfterKeepsCached(brand, models, i - 1, j, cache, fetch, key);
    }
  }

  /** What becomes of each model: its name is kept; an object without a
      default image is untouched; a model that is searched for ends as an
      object holding the search result (or the default model image); and a
      model left as a bare name was not searched for because its key was
      already cached, as it still is at the end. */
  lemma ProcessModelsMeaning(brand: string, models: seq<ModelEntry>, cache: map<string, string>,
                             fetch: string -> Option<string>, j: nat)
    requires j < |models|
    ensures var p := ProcessModels(brand, models, cache, fetch);
      var m := models[j];
      |p.models| == |models| &&
      p.models[j].name == m.name &&
      (m.ModelObject? && !HasDefaultImage(m) ==> p.models[j] == m) &&
      (HasDefaultImage(m) ==> p.models[j] == m.(image := ModelImage(brand, m, fetch))) &&
      (p.models[j].NameOnly? ==> p.models[j] == m && Cached(p.cache, ModelKey(brand, m))) &&
      (p.models[j] != m ==> p.models[j] == ModelObject(ModelText(m), ModelImage(brand, m, fetch)) || HasDefaultImage(m))
  {
    ModelsAfterPrefix(brand, models, |models|, j, cache, fetch);
    if ProcessModels(brand, models, cache, fetch).models[j].NameOnly? {
      ModelsAfterKeepsCached(brand, models, |models|, j, cache, fetch, ModelKey(brand, models[j]));
    }
  }

  /** A string includes whatever stands in its middle. */
  lemma IncludesMiddle(a: string, b: string, c: string)
    ensures Includes(a + b + c, b)
  {
    assert (a + b + c)[|a|..|a| + |b|] == b;
    assert OccursAt(a + b + c, b, |a|);
    IncludesIff(a + b + c, b);
  }

  /** A failed model search stores 'http://default-model-image-url.com',
      which still contains 'default', so the next run searches again. */
  lemma DefaultModelImageIsRetried()
    ensures Includes(DefaultModelImageUrl, "default")
  {
    IncludesMiddle("http://", "default", "-model-image-url.com");
  }

  /** The same holds for 'http://default-brand-image-url.com'. */
  lemma DefaultBrandImageIsRetried()
    ensures Includes(DefaultBrandImageUrl, "default")
  {
    IncludesMiddle("http://", "default", "-brand-image-url.com");
  }

  /** `brands.models.indexOf(modelObj)`: the first position holding an
      equal entry, at or after `k`, or -1. */
  function IndexOf(s: seq<ModelEntry>, x: ModelEntry, k: nat): (r: int)
    requires k <= |s|
    ensures r == -1 || (k <= r < |s| && s[r] == x)
    decreases |s| - k
  {
    if k == |s| then -1 else if s[k] == x then k else IndexOf(s, x, k + 1)
  }

  /** An entry that does not occur before position `i` is found at `i`. */
  lemma {:induction false} IndexOfAt(s: seq<ModelEntry>, x: ModelEntry, k: nat, i: nat)
    requires k <= i < |s| && s[i] == x
    requires forall j :: k <= j < i ==> s[j] != x
    ensures IndexOf(s, x, k) == i
    decreases i - k
  {
    if k < i {
      IndexOfAt(s, x, k + 1, i);
    }
  }

  /** A bare name whose key is not cached does not occur among the models
      before it when every bare name there has its key cached, so `indexOf`
      finds it at its own position. */
  lemma OwnPosition(brand: string, s: seq<ModelEntry>, i: nat, done: seq<ModelEntry>, cache: map<string, string>)
    requires i < |s| && s[i].NameOnly? && !Cached(cache, ModelKey(brand, s[i]))
    requires s[..i] == done
    requires forall j :: 0 <= j < i && done[j].NameOnly? ==> Cached(cache, ModelKey(brand, done[j]))
    ensures IndexOf(s, s[i], 0) == i
  {
    forall j | 0 <= j < i ensures s[j] != s[i] {
      assert s[j] == done[j];
    }
    IndexOfAt(s, s[i], 0, i);
  }

  /** Every model still a bare name after the first `i` has its key cached
      with a truthy image. */
  lemma {:induction false} StringsCached(brand: string, models: seq<ModelEntry>, i: nat,
                                         cache: map<string, string>, fetch: string -> Option<string>)
    requires i <= |models|
    ensures forall j :: 0 <= j < i && ModelsAfter(brand, models, i, cache, fetch).models[j].NameOnly? ==>
      Cached(ModelsAfter(brand, models, i, cache, fetch).cache, ModelKey(brand, ModelsAfter(brand, models, i, cache, fetch).models[j]))
  {
    if i > 0 {
      StringsCached(brand, models, i - 1, cache, fetch);
      var prev := ModelsAfter(brand, models, i - 1, cache, fetch);
      var p := ModelsAfter(brand, models, i, cache, fetch);
      forall key | Cached(prev.cache, key) ensures Cached(p.cache, key) {
      }
      forall j | 0 <= j < i - 1 ensures p.models[j] == prev.models[j] {
      }
      var m := models[i - 1];
      forall j | 0 <= j < i && p.models[j].NameOnly? ensures Cached(p.cache, ModelKey(brand, p.models[j])) {
        if j == i - 1 {
          assert !NeedsImage(brand, m, prev.cache);
          assert p.models[j] == m && p.cache == prev.cache;
        } else {
          assert p.models[j] == prev.models[j];
          assert Cached(prev.cache, ModelKey(brand, prev.models[j]));
        }
      }
    }
  }

  /** The inner loop's body for the model at position `i`. */
  method UpdateModelAt(brand: string, models: array<ModelEntry>, i: nat, cache: map<string, string>,
                       fetch: string -> Option<string>, ghost orig: seq<ModelEntry>, ghost modelCache: map<string, string>)
    returns (nextCache: map<string, string>)
    requires i < models.Length == |orig|
    requires models[i..] == orig[i..]
    requires models[..i] == ModelsAfter(brand, orig, i, modelCache, fetch).models
    requires cache == ModelsAfter(brand, orig, i, modelCache, fetch).cache
    modifies models
    ensures models[..] == old(models[..])[i := ModelStep(brand, orig[i], cache, fetch).0]
    ensures nextCache == ModelStep(brand, orig[i], cache, fetch).1
  {
    var m := models[i];
    assert m == orig[i];
    nextCache := cache;
    if HasDefaultImage(m) || (m.NameOnly? && !Cached(cache, ModelKey(brand, m))) {
      var model := ModelText(m);
      var modelImageUrl := fetch(brand + " " + model);
      nextCache := cache[brand + "_" + model := FetchedOr(modelImageUrl, DefaultModelImageUrl)];
      if m.NameOnly? {
        StringsCached(brand, orig, i, modelCache, fetch);
        OwnPosition(brand, models[..], i, ModelsAfter(brand, orig, i, modelCache, fetch).models, cache);
        var index := IndexOf(models[..], m, 0);
        assert index == i;
        models[index] := ModelObject(model, nextCache[brand + "_" + model]);
      } else {
        models[i] := m.(image := nextCache[brand + "_" + model]);
      }
    }
  }

  /** The inner loop, over one brand's models in place. */
  method UpdateModelImages(brand: string, models: array<ModelEntry>, modelCache: map<string, string>,
                           fetch: string -> Option<string>)
    returns (cache: map<string, string>)
    modifies models
    ensures models[..] == ProcessModels(brand, old(models[..]), modelCache, fetch).models
    ensures cache == ProcessModels(brand, old(models[..]), modelCache, fetch).cache
  {
    ghost var orig := models[..];
    cache := modelCache;
    var i := 0;
    while i < models.Length
      invariant 0 <= i <= models.Length
      invariant models[i..] == orig[i..]
      invariant models[..i] == ModelsAfter(brand, orig, i, modelCache, fetch).models
      invariant cache == ModelsAfter(brand, orig, i, modelCache, fetch).cache
    {
      ghost var before := models[..];
      cache := UpdateModelAt(brand, models, i, cache, fetch, orig, modelCache);
      assert models[i + 1..] == before[i + 1..];
      assert models[..i + 1] == before[..i] + [models[i]];
      i := i + 1;
    }
    assert models[..] == models[..i];
  }

  /** The brand image is replaced when it is empty or still a default, with
      the cached image of the brand, searched for when the cache has none. */
  predicate NeedsBrandImage(b: BrandEntry)
  {
    b.brandImage == "" || Includes(b.brandImage, "default")
  }

  /** One brand's image and the brand cache after it. */
  function BrandImageStep(b: BrandEntry, brandCache: map<string, string>, fetch: string -> Option<string>)
    : (r: (string, map<string, string>))
  {
    if NeedsBrandImage(b) then
      var next := if !Cached(brandCache, b.brand)
                  then brandCache[b.brand := FetchedOr(fetch(b.brand), DefaultBrandImageUrl)]
                  else brandCache;
      (next[b.brand], next)
    else (b.brandImage, brandCache)
  }

  /** One brand: its image, then its models, and both caches after it. */
  function BrandStep(b: BrandEntry, brandCache: map<string, string>, modelCache: map<string, string>,
                     fetch: string -> Option<string>): (BrandEntry, map<string, string>, map<string, string>)
  {
    var image := BrandImageStep(b, brandCache, fetch);
    var models := ProcessModels(b.brand, b.models, modelCache, fetch);
    (BrandEntry(b.brand, image.0, models.models), image.1, models.cache)
  }

  /** The brands so far and both caches. */
  datatype BrandPass = BrandPass(brands: seq<BrandEntry>, brandCache: map<string, string>, modelCache: map<string, string>)

  /** The state after the first `i` brands. */
  function BrandsAfter(brands: seq<BrandEntry>, i: nat, fetch: string -> Option<string>): (r: BrandPass)
    requires i <= |brands|
    ensures |r.brands| == i
  {
    if i == 0 then BrandPass([], map[], map[]) else
      var p := BrandsAfter(brands, i - 1, fetch);
      var step := BrandStep(brands[i - 1], p.brandCache, p.modelCache, fetch);
      BrandPass(p.brands + [step.0], step.1, step.2)
  }

  /** The catalogue the script writes back. */
  function UpdatedCatalogue(brands: seq<BrandEntry>, fetch: string -> Option<string>): seq<BrandEntry>
  {
    BrandsAfter(brands, |brands|, fetch).brands
  }

  /** Later brands never change an earlier one. */
  lemma {:induction false} BrandsAfterPrefix(brands: seq<BrandEntry>, i: nat, j: nat, fetch: string -> Option<string>)
    requires j < i <= |brands|
    ensures BrandsAfter(brands, i, fetch).brands[j] == BrandsAfter(brands, j + 1, fetch).brands[j]
  {
    if i > j + 1 {
      BrandsAfterPrefix(brands, i - 1, j, fetch);
    }
  }

  /** A truthy brand cache entry stays, with its image. */
  lemma {:induction false} BrandsAfterKeepsCached(brands: seq<BrandEntry>, i: nat, j: nat, fetch: string -> Option<string>, brand: string)
    requires j <= i <= |brands|
    requires Cached(BrandsAfter(brands, j, fetch).brandCache, brand)
    ensures Cached(BrandsAfter(brands, i, fetch).brandCache, brand)
    ensures BrandsAfter(brands, i, fetch).brandCache[brand] == BrandsAfter(brands, j, fetch).brandCache[brand]
  {
    if i > j {
      BrandsAfterKeepsCached(brands, i - 1, j, fetch, brand);
    }
  }

  /** The brand image after step `j + 1`, for a brand that needed one, is
      the brand's cached image. */
  lemma BrandImageCached(brands: seq<BrandEntry>, j: nat, fetch: string -> Option<string>)
    requires j < |brands| && NeedsBrandImage(brands[j])
    ensures var p := BrandsAfter(brands, j + 1, fetch);
      Cached(p.brandCache, brands[j].brand) && p.brands[j].brandImage == p.brandCache[brands[j].brand]
  {
  }

  /** What becomes of each brand: its name and the number of its models are
      kept, its models are processed in turn; an image that is set and not a
      default is kept, any other becomes a non-empty image; and two entries
      of one brand that both needed an image end with the same one. */
  lemma UpdatedCatalogueMeaning(brands: seq<BrandEntry>, fetch: string -> Option<string>, j: nat, k: nat)
    requires j < k < |brands|
    ensures var r := UpdatedCatalogue(brands, fetch);
      |r| == |brands| &&
      r[j].brand == brands[j].brand && |r[j].models| == |brands[j].models| &&
      (!NeedsBrandImage(brands[j]) ==> r[j].brandImage == brands[j].brandImage) &&
      (NeedsBrandImage(brands[j]) ==> r[j].brandImage != "") &&
      (brands[j].brand == brands[k].brand && NeedsBrandImage(brands[j]) && NeedsBrandImage(brands[k]) ==>
         r[j].brandImage == r[k].brandImage)
  {
    var n := |brands|;
    BrandsAfterPrefix(brands, n, j, fetch);
    BrandsAfterPrefix(brands, n, k, fetch);
    if NeedsBrandImage(brands[j]) {
      BrandImageCached(brands, j, fetch);
      if brands[j].brand == brands[k].brand && NeedsBrandImage(brands[k]) {
        BrandImageCached(brands, k, fetch);
        BrandsAfterKeepsCached(brands, k, j + 1, fetch, brands[j].brand);
      }
    }
  }

  /** The body of the outer loop: the brand image, then the models, of one
      brand. */
  method ProcessBrand(b: BrandEntry, brandCache: map<string, string>, modelCache: map<string, string>,
                      fetch: string -> Option<string>)
    returns (entry: BrandEntry, nextBrandCache: map<string, string>, nextModelCache: map<string, string>)
    ensures (entry, nextBrandCache, nextModelCache) == BrandStep(b, brandCache, modelCache, fetch)
  {
    nextBrandCache := brandCache;
    var brandImage := b.brandImage;
    if b.brandImage == "" || Includes(b.brandImage, "default") {
      if !Cached(nextBrandCache, b.brand) {
        var brandImageUrl := fetch(b.brand);
        nextBrandCache := nextBrandCache[b.brand := FetchedOr(brandImageUrl, DefaultBrandImageUrl)];
      }
      brandImage := nextBrandCache[b.brand];
    }
    var models := new ModelEntry[|b.models|](j requires 0 <= j < |b.models| => b.models[j]);
    assert models[..] == b.models;
    nextModelCache := UpdateModelImages(b.brand, models, modelCache, fetch);
    entry := BrandEntry(b.brand, brandImage, models[..]);
  }

  /** The outer loop, over the catalogue in place. */
  method UpdateBrandImages(brands: array<BrandEntry>, fetch: string -> Option<string>)
    modifies brands
    ensures brands[..] == UpdatedCatalogue(old(brands[..]), fetch)
  {
    ghost var orig := brands[..];
    var brandCache: map<string, string> := map[];
    var modelCache: map<string, string> := map[];
    var i := 0;
    while i < brands.Length
      invariant 0 <= i <= brands.Length
      invariant brands[i..] == orig[i..]
      invariant BrandPass(brands[..i], brandCache, modelCache) == BrandsAfter(orig, i, fetch)
    {
      var b := brands[i];
      assert b == orig[i];
      ghost var before := brands[..];
      var entry;
      entry, brandCache, modelCache := ProcessBrand(b, brandCache, modelCache, fetch);
      brands[i] := entry;
      assert brands[i + 1..] == before[i + 1..];
      assert brands[..i + 1] == before[..i] + [entry];
      i := i + 1;
    }
    assert brands[..] == brands[..i];
  }

  /** The cars of a catalogue, in a fresh array the loop can update. */
  method ToArray(s: seq<BrandEntry>) returns (a: array<BrandEntry>)
    ensures fresh(a) && a[..] == s
  {
    a := new BrandEntry[|s|](i requires 0 <= i < |s| => s[i]);
  }

  /** The script: an unreadable, empty or malformed file is left unwritten;
      otherwise the catalogue (or `[]`) gets its images and every other key
      is written back as it was. */
  method UpdateSupportedCarBrandsAndModels(file: ReadResult, fetch: string -> Option<string>) returns (written: Option<Db>)
    ensures file.Unreadable? ==> written.None?
    ensures file.Parsed? ==>
      written == Some(file.db.(supportedCarBrandsAndModels :=
        Some(UpdatedCatalogue(file.db.supportedCarBrandsAndModels.GetOr([]), fetch))))
  {
    if file.Unreadable? {
      return None;
    }
    var db := file.db;
    var carBrands := ToArray(db.supportedCarBrandsAndModels.GetOr([]));
    UpdateBrandImages(carBrands, fetch);
    written := Some(db.(supportedCarBrandsAndModels := Some(carBrands[..])));
  }
}
