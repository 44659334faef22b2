/** The stored records the calculation engine and the mapping rules work on:
    the per-100 g nutrition facts of a food, the food itself with its
    serving information, the alternative servings kept as a JSON column,
    and the food table, which the services query by id among active foods. */
module FoodModel {
  import opened Nullable

  /** A `Guid` key. */
  type Guid = int

  /** A point in time (`DateTime`), kept opaque. */
  type Instant = int

  /** The nutrient columns of the `nutrition_facts` table, one constructor per
      column, named as the entity names them. */
  datatype Nutrient =
    | CaloriesKcal | ProteinG | FatG | CarbohydrateG | FiberG | SugarG
    | SaturatedFatG | MonounsaturatedFatG | PolyunsaturatedFatG | TransFatG | CholesterolMg
    | SodiumMg | PotassiumMg | CalciumMg | IronMg | MagnesiumMg | PhosphorusMg | ZincMg
    | CopperMg | ManganeseMg | SeleniumMcg
    | VitaminAMcg | VitaminCMg | VitaminDMcg | VitaminEMg | VitaminKMcg
    | ThiamineMg | RiboflavinMg | NiacinMg | VitaminB6Mg | FolateMcg | VitaminB12Mcg
    | BiotinMcg | PantothenicAcidMg | CholineMg

  /** A set of nutrient columns; a key missing from the map is a null column. */
  type Amounts = map<Nutrient, real>

  /** The value of one nullable nutrient column. */
  function Get(a: Amounts, n: Nutrient): (r: Option<real>)
    ensures r.Some? <==> n in a
    ensures r.Some? ==> r.value == a[n]
  {
    if n in a then Some(a[n]) else None
  }

  /** The `NutritionFacts` entity: nutrient amounts per 100 g of the food. */
  datatype NutritionFacts = NutritionFacts(
    id: Guid,
    foodId: Guid,
    servingSizeG: Option<real>,
    amounts: Amounts,
    dataSource: Option<string>,
    confidenceScore: Option<real>,
    createdAt: Instant,
    updatedAt: Instant)

  /** The loaded `Food.Category` navigation, as far as the services read it. */
  datatype CategoryRef = CategoryRef(name: Option<string>, nameVi: string)

  /** One element of the alternative-servings JSON list
      (`Grams`, `Description`, `DescriptionEn`). */
  datatype AlternativeServing = AlternativeServing(grams: real, description: string, descriptionEn: string)

  /** The `Food` entity. */
  datatype Food = Food(
    id: Guid,
    name: string,
    nameEn: string,
    nameVi: string,
    description: string,
    foodCode: Option<string>,
    barcode: string,
    categoryId: Option<Guid>,
    dataSource: string,
    externalId: string,
    sourceUrl: string,
    servingSizeGrams: Option<real>,
    servingSizeDescription: Option<string>,
    servingSizeDescriptionEn: Option<string>,
    alternativeServingSizes: Option<string>,
    isVerified: bool,
    verificationStatus: string,
    verifiedBy: Option<Guid>,
    verifiedAt: Option<Instant>,
    isActive: bool,
    createdBy: Option<Guid>,
    createdAt: Instant,
    updatedAt: Instant,
    category: Option<CategoryRef>,
    nutritionFacts: Option<NutritionFacts>)

  /** A display label. `GramsText(g)` stands for the interpolated string
      `$"{g}g"`, whose decimal formatting is not modelled; `Text` is any
      other literal or stored description. */
  datatype Label = Text(s: string) | GramsText(grams: real)

  /** What `JsonSerializer.Deserialize<List<...>>` does with a non-empty
      string: returns a list, returns null (the JSON literal `null`), throws a
      `JsonException`, or throws some other exception. */
  datatype Deserialized =
    | Parsed(items: seq<AlternativeServing>)
    | JsonNull
    | JsonError
    | OtherError

  /** What `JsonSerializer.Serialize` does with a list: returns its text or throws. */
  datatype Serialized = Json(text: string) | SerializeError

  /** The exceptions the modelled code can let escape. */
  datatype Fault =
    | ArgumentFault   // ArgumentException
    | JsonFault       // JsonException
    | OtherFault      // any other exception from the serializer

  datatype Result<+T> = Ok(value: T) | Err(fault: Fault)

  /** The `foods` table, keyed by id. */
  type FoodStore = map<Guid, Food>

  /** `Foods.FirstOrDefaultAsync(f => f.Id == id && f.IsActive)`. */
  function FindActive(store: FoodStore, id: Guid): (r: Option<Food>)
    ensures r.Some? <==> id in store && store[id].isActive
    ensures r.Some? ==> r.value == store[id]
  {
    if id in store && store[id].isActive then Some(store[id]) else None
  }

  /** `string.IsNullOrEmpty`. */
  predicate IsNullOrEmpty(s: Option<string>)
  {
    s.None? || s.value == ""
  }
}
