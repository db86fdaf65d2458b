/** The car listing's entities: a posted car and the catalogue of supported
    brands and models. */
module CarEntity {

  datatype Gearbox = Automatic | Manual

  /** The gearbox as the text the listing stores and shows. */
  function GearboxName(g: Gearbox): string
  {
    match g
    case Automatic => "Automatic"
    case Manual => "Manual"
  }

  /** A car offered for sale. */
  datatype Car = Car(
    id: string,
    userId: string,
    brand: string,
    model: string,
    gearbox: Gearbox,
    color: string,
    makeYear: int,
    datePosted: string,
    photoUrl: string)

  /** A model of the catalogue of supported cars. */
  datatype SupportedCarModel = SupportedCarModel(name: string, image: string)

  /** A brand of the catalogue with its models. */
  datatype SupportedCar = SupportedCar(brand: string, brandImage: string, models: seq<SupportedCarModel>)

  /** The keys of a car (`keyof Car`). */
  datatype CarField =
    | IdField | UserIdField | BrandField | ModelField | GearboxField
    | ColorField | MakeYearField | DatePostedField | PhotoUrlField

  function FieldName(f: CarField): string
  {
    match f
    case IdField => "id"
    case UserIdField => "userId"
    case BrandField => "brand"
    case ModelField => "model"
    case GearboxField => "gearbox"
    case ColorField => "color"
    case MakeYearField => "makeYear"
    case DatePostedField => "datePosted"
    case PhotoUrlField => "photoUrl"
  }
}
