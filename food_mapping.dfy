/** The food mapping rules: a `Food` projected to its list DTO (calories,
    protein and category name pulled from the loaded navigations), the
    alternative servings of the details DTO read back from their JSON
    column, a food created from its create DTO (ids, verification state and
    the JSON column filled in), and the update that skips null members. */
module FoodMapping {
  import opened Nullable
  import opened FoodModel

  /** `FoodListDto`, as the listing shows a food. */
  datatype FoodListDto = FoodListDto(
    id: Guid,
    nameVi: string,
    nameEn: string,
    servingSizeGrams: Option<real>,
    servingSizeDescription: Option<string>,
    caloriesKcal: Option<real>,
    proteinG: Option<real>,
    categoryName: string,
    isVerified: bool,
    dataSource: string,
    updatedAt: Instant)

  /** One nutrient of the loaded `NutritionFacts`, or null when the food has
      no facts or the column is null. */
  function FactsNutrient(f: Food, n: Nutrient): (r: Option<real>)
    ensures r.Some? <==> f.nutritionFacts.Some? && n in f.nutritionFacts.value.amounts
    ensures r.Some? ==> r.value == f.nutritionFacts.value.amounts[n]
  {
    if f.nutritionFacts.Some? then Get(f.nutritionFacts.value.amounts, n) else None
  }

  /** `Food` to `FoodListDto`: the scalar members copied, calories and protein
      taken from the nutrition facts when they are loaded, and the category
      shown by its Vietnamese name or as the empty string. */
  function ToFoodListDto(f: Food): (r: FoodListDto)
    ensures r.id == f.id && r.nameVi == f.nameVi && r.nameEn == f.nameEn
    ensures r.servingSizeGrams == f.servingSizeGrams && r.servingSizeDescription == f.servingSizeDescription
    ensures r.isVerified == f.isVerified && r.dataSource == f.dataSource && r.updatedAt == f.updatedAt
    ensures r.caloriesKcal.Some? <==> f.nutritionFacts.Some? && CaloriesKcal in f.nutritionFacts.value.amounts
    ensures r.caloriesKcal.Some? ==> r.caloriesKcal.value == f.nutritionFacts.value.amounts[CaloriesKcal]
    ensures r.proteinG.Some? <==> f.nutritionFacts.Some? && ProteinG in f.nutritionFacts.value.amounts
    ensures r.proteinG.Some? ==> r.proteinG.value == f.nutritionFacts.value.amounts[ProteinG]
    ensures f.category.Some? ==> r.categoryName == f.category.value.nameVi
    ensures f.category.None? ==> r.categoryName == ""
  {
    FoodListDto(f.id, f.nameVi, f.nameEn, f.servingSizeGrams, f.servingSizeDescription,
                FactsNutrient(f, CaloriesKcal), FactsNutrient(f, ProteinG),
                if f.category.Some? then f.category.value.nameVi else "",
                f.isVerified, f.dataSource, f.updatedAt)
  }

  /** The listing reads only the two nutrients it shows: two foods whose
      facts agree on calories and protein list the same. */
  lemma ListingReadsOnlyCaloriesAndProtein(f: Food, g: Food)
    requires f.nutritionFacts.Some? && g.nutritionFacts.Some? && g == f.(nutritionFacts := g.nutritionFacts)
    requires Get(f.nutritionFacts.value.amounts, CaloriesKcal) == Get(g.nutritionFacts.value.amounts, CaloriesKcal)
    requires Get(f.nutritionFacts.value.amounts, ProteinG) == Get(g.nutritionFacts.value.amounts, ProteinG)
    ensures ToFoodListDto(f) == ToFoodListDto(g)
  {
  }

  /** A food with facts of 350 kcal and 12 g protein in the category "Cơm"
      lists with exactly those values. */
  lemma BrokenRiceListing(id: Guid, now: Instant, facts: NutritionFacts)
    requires facts.amounts == map[CaloriesKcal := 350.0, ProteinG := 12.0]
    ensures var f := Food(id, "Cơm tấm", "Broken Rice", "Cơm tấm", "", None, "", None, "manual", "", "",
                          Some(250.0), Some("1 đĩa"), None, None, true, "pending", None, None, true, None,
                          now, now, Some(CategoryRef(None, "Cơm")), Some(facts));
            var r := ToFoodListDto(f);
            r.caloriesKcal == Some(350.0) && r.proteinG == Some(12.0) && r.categoryName == "Cơm"
            && r.servingSizeGrams == Some(250.0) && r.nameEn == "Broken Rice"
  {
  }

  /** `FoodDetailsDto.AlternativeServingSizes`: an empty list for a null or
      empty column, otherwise the deserialized list; a JSON `null` becomes an
      empty list, and a deserializer exception is not caught. */
  function DetailsAlternatives(column: Option<string>, deserialize: string -> Deserialized): (r: Result<seq<AlternativeServing>>)
    ensures IsNullOrEmpty(column) ==> r == Ok([])
    ensures !IsNullOrEmpty(column) ==>
              (r.Err? <==> deserialize(column.value).JsonError? || deserialize(column.value).OtherError?)
    ensures !IsNullOrEmpty(column) && deserialize(column.value).Parsed? ==> r == Ok(deserialize(column.value).items)
    ensures !IsNullOrEmpty(column) && deserialize(column.value).JsonNull? ==> r == Ok([])
    ensures r.Err? ==> (r.fault == JsonFault <==> deserialize(column.value).JsonError?)
  {
    if IsNullOrEmpty(column) then Ok([])
    else match deserialize(column.value)
      case Parsed(items) => Ok(items)
      case JsonNull => Ok([])
      case JsonError => Err(JsonFault)
      case OtherError => Err(OtherFault)
  }

  /** `CreateFoodDto`; its `NutritionFacts` and `AllergenIds` have no
      counterpart the mapping fills in. */
  datatype CreateFoodDto = CreateFoodDto(
    name: string,
    nameEn: string,
    nameVi: string,
    description: string,
    foodCode: Option<string>,
    barcode: string,
    categoryId: Option<Guid>,
    dataSource: string,
    externalId: string,
    sourceUrl: string,
    servingSizeGrams: Option<real>,
    servingSizeDescription: string,
    servingSizeDescriptionEn: string,
    alternativeServingSizes: seq<AlternativeServing>,
    isActive: bool)

  /** The JSON column written for a list of alternatives: null for an empty
      list, otherwise the serializer's text; a serializer exception escapes. */
  function AlternativesColumn(items: seq<AlternativeServing>, serialize: seq<AlternativeServing> -> Serialized): (r: Result<Option<string>>)
    ensures r.Err? <==> |items| > 0 && serialize(items).SerializeError?
    ensures r.Err? ==> r.fault == OtherFault
    ensures r.Ok? ==> (r.value.None? <==> |items| == 0)
    ensures r.Ok? && r.value.Some? ==> serialize(items) == Json(r.value.value)
  {
    if |items| == 0 then Ok(None)
    else match serialize(items)
      case Json(text) => Ok(Some(text))
      case SerializeError => Err(OtherFault)
  }

  /** `CreateFoodDto` to `Food`: a fresh id, not verified and "pending",
      no verifier, creator, category or facts, both timestamps the entity's
      creation time, and the alternatives written as a JSON column. */
  function CreateFood(dto: CreateFoodDto, newId: Guid, now: Instant,
                      serialize: seq<AlternativeServing> -> Serialized): (r: Result<Food>)
    ensures r.Err? <==> |dto.alternativeServingSizes| > 0 && serialize(dto.alternativeServingSizes).SerializeError?
    ensures r.Ok? ==> r.value.id == newId && !r.value.isVerified && r.value.verificationStatus == "pending"
    ensures r.Ok? ==> r.value.verifiedBy.None? && r.value.verifiedAt.None? && r.value.createdBy.None?
    ensures r.Ok? ==> r.value.category.None? && r.value.nutritionFacts.None?
    ensures r.Ok? ==> r.value.createdAt == now && r.value.updatedAt == now
    ensures r.Ok? ==> (r.value.alternativeServingSizes.None? <==> |dto.alternativeServingSizes| == 0)
    ensures r.Ok? && r.value.alternativeServingSizes.Some? ==>
              serialize(dto.alternativeServingSizes) == Json(r.value.alternativeServingSizes.value)
    ensures r.Ok? ==> r.value.name == dto.name && r.value.nameEn == dto.nameEn && r.value.nameVi == dto.nameVi
    ensures r.Ok? ==> r.value.description == dto.description && r.value.foodCode == dto.foodCode
    ensures r.Ok? ==> r.value.barcode == dto.barcode && r.value.categoryId == dto.categoryId
    ensures r.Ok? ==> r.value.dataSource == dto.dataSource && r.value.externalId == dto.externalId
    ensures r.Ok? ==> r.value.sourceUrl == dto.sourceUrl && r.value.servingSizeGrams == dto.servingSizeGrams
    ensures r.Ok? ==> r.value.servingSizeDescription == Some(dto.servingSizeDescription)
    ensures r.Ok? ==> r.value.servingSizeDescriptionEn == Some(dto.servingSizeDescriptionEn)
    ensures r.Ok? ==> r.value.isActive == dto.isActive
  {
    match AlternativesColumn(dto.alternativeServingSizes, serialize)
    case Err(fault) => Err(fault)
    case Ok(column) =>
      Ok(Food(newId, dto.name, dto.nameEn, dto.nameVi, dto.description, dto.foodCode, dto.barcode,
              dto.categoryId, dto.dataSource, dto.externalId, dto.sourceUrl, dto.servingSizeGrams,
              Some(dto.servingSizeDescription), Some(dto.servingSizeDescriptionEn), column,
              false, "pending", None, None, dto.isActive, None, now, now, None, None))
  }

  /** A created food lists under its own names, with no calories, protein
      or category. */
  lemma CreatedFoodListing(dto: CreateFoodDto, newId: Guid, now: Instant,
                           serialize: seq<AlternativeServing> -> Serialized)
    requires CreateFood(dto, newId, now, serialize).Ok?
    ensures var r := ToFoodListDto(CreateFood(dto, newId, now, serialize).value);
            r == FoodListDto(newId, dto.nameVi, dto.nameEn, dto.servingSizeGrams, Some(dto.servingSizeDescription),
                             None, None, "", false, dto.dataSource, now)
  {
  }

  /** `UpdateFoodDto`: every member nullable. */
  datatype UpdateFoodDto = UpdateFoodDto(
    name: Option<string>,
    nameEn: Option<string>,
    nameVi: Option<string>,
    description: Option<string>,
    foodCode: Option<string>,
    barcode: Option<string>,
    categoryId: Option<Guid>,
    dataSource: Option<string>,
    externalId: Option<string>,
    sourceUrl: Option<string>,
    servingSizeGrams: Option<real>,
    servingSizeDescription: Option<string>,
    servingSizeDescriptionEn: Option<string>,
    alternativeServingSizes: Option<seq<AlternativeServing>>,
    isActive: Option<bool>)

  /** The update that changes nothing but the timestamp. */
  const EmptyFoodUpdate := UpdateFoodDto(None, None, None, None, None, None, None, None, None, None,
                                         None, None, None, None, None)

  /** A nullable member of an update laid over the current nullable value:
      the update when it is not null, the current value otherwise. */
  function Overlay<T>(update: Option<T>, current: Option<T>): (r: Option<T>)
    ensures update.Some? ==> r == update
    ensures update.None? ==> r == current
  {
    if update.Some? then update else current
  }

  /** What an update never touches: the id, the creation time, the
      verification state, the creator and the loaded navigations. */
  predicate KeptOnUpdate(current: Food, u: Food)
  {
    && u.id == current.id && u.createdAt == current.createdAt
    && u.isVerified == current.isVerified && u.verificationStatus == current.verificationStatus
    && u.verifiedBy == current.verifiedBy && u.verifiedAt == current.verifiedAt
    && u.createdBy == current.createdBy
    && u.category == current.category && u.nutritionFacts == current.nutritionFacts
  }

  /** Every scalar member of `u` is the update's value when it is not null
      and the current value otherwise. */
  predicate NullSkipped(current: Food, dto: UpdateFoodDto, u: Food)
  {
    && u.name == dto.name.OrElse(current.name)
    && u.nameEn == dto.nameEn.OrElse(current.nameEn)
    && u.nameVi == dto.nameVi.OrElse(current.nameVi)
    && u.description == dto.description.OrElse(current.description)
    && u.foodCode == Overlay(dto.foodCode, current.foodCode)
    && u.barcode == dto.barcode.OrElse(current.barcode)
    && u.categoryId == Overlay(dto.categoryId, current.categoryId)
    && u.dataSource == dto.dataSource.OrElse(current.dataSource)
    && u.externalId == dto.externalId.OrElse(current.externalId)
    && u.sourceUrl == dto.sourceUrl.OrElse(current.sourceUrl)
    && u.servingSizeGrams == Overlay(dto.servingSizeGrams, current.servingSizeGrams)
    && u.servingSizeDescription
       == Overlay(dto.servingSizeDescription, current.servingSizeDescription)
    && u.servingSizeDescriptionEn
       == Overlay(dto.servingSizeDescriptionEn, current.servingSizeDescriptionEn)
    && u.isActive == dto.isActive.OrElse(current.isActive)
  }

  /** The entity after the member-by-member copy, given the JSON column the
      alternatives produced (null when they are to be skipped). */
  function ApplyFoodUpdate(current: Food, dto: UpdateFoodDto, column: Option<string>, now: Instant): (u: Food)
    ensures KeptOnUpdate(current, u) && NullSkipped(current, dto, u) && u.updatedAt == now
    ensures u.alternativeServingSizes == Overlay(column, current.alternativeServingSizes)
  {
    Food(current.id,
         dto.name.OrElse(current.name),
         dto.nameEn.OrElse(current.nameEn),
         dto.nameVi.OrElse(current.nameVi),
         dto.description.OrElse(current.description),
         Overlay(dto.foodCode, current.foodCode),
         dto.barcode.OrElse(current.barcode),
         Overlay(dto.categoryId, current.categoryId),
         dto.dataSource.OrElse(current.dataSource),
         dto.externalId.OrElse(current.externalId),
         dto.sourceUrl.OrElse(current.sourceUrl),
         Overlay(dto.servingSizeGrams, current.servingSizeGrams),
         Overlay(dto.servingSizeDescription, current.servingSizeDescription),
         Overlay(dto.servingSizeDescriptionEn, current.servingSizeDescriptionEn),
         Overlay(column, current.alternativeServingSizes),
         current.isVerified, current.verificationStatus, current.verifiedBy, current.verifiedAt,
         dto.isActive.OrElse(current.isActive),
         current.createdBy, current.createdAt, now, current.category, current.nutritionFacts)
  }

  /** `UpdateFoodDto` mapped onto an existing `Food`: a null member keeps the
      current value; the alternatives are serialized when the list is present
      and not empty and otherwise kept; the id, creation time, verification
      state, creator, category and facts are never touched, and the update
      time is `now`. */
  function UpdateFood(current: Food, dto: UpdateFoodDto, now: Instant,
                      serialize: seq<AlternativeServing> -> Serialized): (r: Result<Food>)
    ensures r.Err? <==> dto.alternativeServingSizes.Some? && |dto.alternativeServingSizes.value| > 0
                        && serialize(dto.alternativeServingSizes.value).SerializeError?
    ensures r.Ok? ==> KeptOnUpdate(current, r.value) && r.value.updatedAt == now
    ensures r.Ok? ==> NullSkipped(current, dto, r.value)
    ensures r.Ok? && (dto.alternativeServingSizes.None? || dto.alternativeServingSizes.value == []) ==>
              r.value.alternativeServingSizes == current.alternativeServingSizes
    ensures r.Ok? && dto.alternativeServingSizes.Some? && dto.alternativeServingSizes.value != [] ==>
              r.value.alternativeServingSizes.Some?
              && serialize(dto.alternativeServingSizes.value) == Json(r.value.alternativeServingSizes.value)
  {
    var column := if dto.alternativeServingSizes.Some?
                  then AlternativesColumn(dto.alternativeServingSizes.value, serialize)
                  else Ok(None);
    match column
    case Err(fault) => Err(fault)
    case Ok(text) => Ok(ApplyFoodUpdate(current, dto, text, now))
  }

  /** An update of nothing only moves the timestamp. */
  lemma EmptyFoodUpdateOnlyTouchesTimestamp(current: Food, now: Instant,
                                            serialize: seq<AlternativeServing> -> Serialized)
    ensures UpdateFood(current, EmptyFoodUpdate, now, serialize) == Ok(current.(updatedAt := now))
  {
  }

  /** Applying the same update twice is applying it once. */
  lemma FoodUpdateIdempotent(c: Food, dto: UpdateFoodDto, now: Instant,
                             serialize: seq<AlternativeServing> -> Serialized)
    requires UpdateFood(c, dto, now, serialize).Ok?
    ensures UpdateFood(UpdateFood(c, dto, now, serialize).value, dto, now, serialize) == UpdateFood(c, dto, now, serialize)
  {
  }

  /** An update never changes what verification decided: a verified food
      stays verified with its verifier. */
  lemma UpdateKeepsVerification(c: Food, dto: UpdateFoodDto, now: Instant,
                                serialize: seq<AlternativeServing> -> Serialized)
    requires UpdateFood(c, dto, now, serialize).Ok?
    ensures var u := UpdateFood(c, dto, now, serialize).value;
            (u.isVerified, u.verificationStatus, u.verifiedBy, u.verifiedAt)
            == (c.isVerified, c.verificationStatus, c.verifiedBy, c.verifiedAt)
  {
  }

  /** Neither a missing nor an empty list can clear the stored alternatives;
      updating a created food with the list it was created with stores the
      same column. */
  lemma UpdateWithCreatedAlternativesKeepsColumn(dto: CreateFoodDto, newId: Guid, t0: Instant, t1: Instant,
                                                 serialize: seq<AlternativeServing> -> Serialized)
    requires CreateFood(dto, newId, t0, serialize).Ok?
    ensures var c := CreateFood(dto, newId, t0, serialize).value;
            var u := UpdateFood(c, EmptyFoodUpdate.(alternativeServingSizes := Some(dto.alternativeServingSizes)), t1, serialize);
            u == Ok(c.(updatedAt := t1))
  {
  }
}
