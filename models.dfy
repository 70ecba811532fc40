/** The catalog entities: products with their specification bags, and presets. */
module Models {
  import opened Wrappers
  import opened Json

  /** The product categories; `TypeName` gives the value stored in the database. */
  datatype ProductType = Cpu | Motherboard | Gpu | Ram | Storage | Psu | Case | Cooler | Peripheral | Laptop

  function TypeName(t: ProductType): (name: string)
    ensures name != []
  {
    match t
    case Cpu => "cpu"
    case Motherboard => "motherboard"
    case Gpu => "gpu"
    case Ram => "ram"
    case Storage => "storage"
    case Psu => "psu"
    case Case => "case"
    case Cooler => "cooler"
    case Peripheral => "peripheral"
    case Laptop => "laptop"
  }

  /** Distinct product types are stored under distinct names. */
  lemma TypeNameInjective(a: ProductType, b: ProductType)
    ensures TypeName(a) == TypeName(b) ==> a == b
  {
  }

  /** `ProductType(value)`: the type stored under `value`, or none (the source raises ValueError). */
  function ParseProductType(value: string): (t: Option<ProductType>)
    ensures t.Some? ==> TypeName(t.value) == value
  {
    if value == "cpu" then Some(Cpu)
    else if value == "motherboard" then Some(Motherboard)
    else if value == "gpu" then Some(Gpu)
    else if value == "ram" then Some(Ram)
    else if value == "storage" then Some(Storage)
    else if value == "psu" then Some(Psu)
    else if value == "case" then Some(Case)
    else if value == "cooler" then Some(Cooler)
    else if value == "peripheral" then Some(Peripheral)
    else if value == "laptop" then Some(ProductType.Laptop)
    else None
  }

  /** Parsing a stored type name gives the type back. */
  lemma ParseTypeName(t: ProductType)
    ensures ParseProductType(TypeName(t)) == Some(t)
  {
  }

  /** The segments; products and presets use the same four values. */
  datatype Segment = Home | Gaming | Pro | Business

  function SegmentName(s: Segment): string {
    match s
    case Home => "home"
    case Gaming => "gaming"
    case Pro => "pro"
    case Business => "business"
  }

  datatype DeviceType = Pc | Laptop

  /** A product's `specifications` JSON object. */
  type Specs = map<string, Json>

  /** `specifications.get(key, default)`. */
  function SpecGet(specs: Specs, key: string, default: Json): Json {
    if key in specs then specs[key] else default
  }

  datatype Product = Product(
    id: string,
    name: string,
    kind: ProductType,
    segment: Option<Segment>,
    price: real,
    specifications: Specs,
    inStock: bool,
    performanceScore: Option<real>,
    gamingScore: Option<real>,
    brand: Option<string>,
    model: Option<string>)

  datatype Preset = Preset(
    id: string,
    name: string,
    description: Option<string>,
    deviceType: DeviceType,
    segment: Segment,
    minBudget: Option<real>,
    maxBudget: Option<real>,
    componentMap: map<string, string>,
    totalPrice: real,
    performanceScore: Option<real>,
    reasoning: Option<string>,
    isActive: bool,
    priority: int,
    imageUrl: Option<string>)

  /** A nullable float column read with Python truthiness: `NULL` and `0.0` are both false. */
  predicate TruthyScore(o: Option<real>) {
    o.Some? && o.value != 0.0
  }

  /** `score or fallback` on a nullable float column. */
  function OrElse(o: Option<real>, fallback: real): real {
    if TruthyScore(o) then o.value else fallback
  }
}
