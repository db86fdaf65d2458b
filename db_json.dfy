/**
 * The `db.json` file the offline scripts rewrite, and the image search they
 * call. Reading and parsing are reduced to their outcome, and the Unsplash
 * search to an oracle that answers a query with an image URL or nothing
 * (no result, or a failed request).
 */
module DbJson {

  import opened Wrappers
  import opened CarEntity

  /** A model of the catalogue as the file may hold it: a bare name, or an
      object with a name and an image (`''` when it has none). */
  datatype ModelEntry = NameOnly(name: string) | ModelObject(name: string, image: string)

  /** A brand of the catalogue with its brand image (`''` when it has none). */
  datatype BrandEntry = BrandEntry(brand: string, brandImage: string, models: seq<ModelEntry>)

  /** The three lists the scripts touch, and the other top-level keys,
      whose values are kept as their JSON text. */
  datatype Db = Db(
    carsPosted: Option<seq<Car>>,
    cars: Option<seq<Car>>,
    supportedCarBrandsAndModels: Option<seq<BrandEntry>>,
    otherKeys: map<string, string>)

  /** Reading `./db.json`: it could not be read, was empty or blank, or did
      not parse; or it parsed to `db`. */
  datatype ReadResult = Unreadable | Parsed(db: Db)

  const DefaultImageUrl := "http://default-image-url.com"

  /** 'http://default-brand-image-url.com' and 'http://default-model-image-url.com',
      written around the word the catalogue script looks for. */
  const DefaultBrandImageUrl := "http://" + "default" + "-brand-image-url.com"
  const DefaultModelImageUrl := "http://" + "default" + "-model-image-url.com"

  /** `imageUrl || fallback`: a missing or empty URL gives the fallback. */
  function FetchedOr(imageUrl: Option<string>, fallback: string): (u: string)
    ensures fallback != "" ==> u != ""
    ensures imageUrl.Some? && imageUrl.value != "" ==> u == imageUrl.value
    ensures imageUrl.None? || imageUrl.value == "" ==> u == fallback
  {
    if imageUrl.Some? && imageUrl.value != "" then imageUrl.value else fallback
  }
}
