/** The hand-written helpers beside the mapping profiles: reading and
    writing the alternative-servings JSON column without letting a
    serializer exception escape, and turning a create DTO into a new food
    entity with its defaults forced. The category tree builder of the same
    file lives in `CategoryTree`. */
module MappingExtensions {
  import opened Nullable
  import opened FoodModel
  import opened FoodMapping

  /** `ParseAlternativeServingSizes`: the deserialized list, or an empty list
      for a null or empty column, a JSON `null`, or any exception. */
  function ParseAlternativeServingSizes(json: Option<string>, deserialize: string -> Deserialized): (r: seq<AlternativeServing>)
    ensures IsNullOrEmpty(json) ==> r == []
    ensures !IsNullOrEmpty(json) && deserialize(json.value).Parsed? ==> r == deserialize(json.value).items
    ensures !IsNullOrEmpty(json) && !deserialize(json.value).Parsed? ==> r == []
  {
    if IsNullOrEmpty(json) then []
    else match deserialize(json.value)
      case Parsed(items) => items
      case _ => []
  }

  /** The catch-all reader and the details mapping agree wherever the details
      mapping succeeds, and where it throws the reader answers an empty list. */
  lemma ParseAgreesWithDetails(json: Option<string>, deserialize: string -> Deserialized)
    ensures DetailsAlternatives(json, deserialize).Ok? ==>
              ParseAlternativeServingSizes(json, deserialize) == DetailsAlternatives(json, deserialize).value
    ensures DetailsAlternatives(json, deserialize).Err? ==> ParseAlternativeServingSizes(json, deserialize) == []
  {
  }

  /** `ToAlternativeServingSizesJson`: null for a null or empty list and for
      a serializer exception, otherwise the serializer's text. */
  function ToAlternativeServingSizesJson(items: Option<seq<AlternativeServing>>,
                                         serialize: seq<AlternativeServing> -> Serialized): (r: Option<string>)
    ensures items.None? || items.value == [] ==> r.None?
    ensures items.Some? && items.value != [] ==> (r.None? <==> serialize(items.value).SerializeError?)
    ensures r.Some? ==> serialize(items.value) == Json(r.value)
  {
    if items.None? || |items.value| == 0 then None
    else match serialize(items.value)
      case Json(text) => Some(text)
      case SerializeError => None
  }

  /** The writer produces the column the create mapping stores whenever that
      mapping succeeds; where the mapping throws, the writer answers null. */
  lemma JsonAgreesWithCreateColumn(items: seq<AlternativeServing>, serialize: seq<AlternativeServing> -> Serialized)
    ensures AlternativesColumn(items, serialize).Ok? ==>
              ToAlternativeServingSizesJson(Some(items), serialize) == AlternativesColumn(items, serialize).value
    ensures AlternativesColumn(items, serialize).Err? ==> ToAlternativeServingSizesJson(Some(items), serialize).None?
  {
  }

  /** Whatever the serializer does, a column the writer produced is read back
      by the reader as the list written, as long as the deserializer reads
      the serializer's non-empty text back. */
  lemma WrittenColumnReadsBack(items: seq<AlternativeServing>, serialize: seq<AlternativeServing> -> Serialized,
                               deserialize: string -> Deserialized)
    requires ToAlternativeServingSizesJson(Some(items), serialize).Some?
    requires var t := ToAlternativeServingSizesJson(Some(items), serialize).value;
             t != "" && deserialize(t) == Parsed(items)
    ensures ParseAlternativeServingSizes(ToAlternativeServingSizesJson(Some(items), serialize), deserialize) == items
  {
  }

  /** `ToFoodEntity`: the profile's create mapping (whose entity defaults read
      the clock at `mappedAt`), then the timestamps set to `now` and the
      entity forced active, pending and unverified. */
  method ToFoodEntity(dto: CreateFoodDto, newId: Guid, mappedAt: Instant, now: Instant,
                      serialize: seq<AlternativeServing> -> Serialized) returns (r: Result<Food>)
    ensures r.Err? <==> CreateFood(dto, newId, mappedAt, serialize).Err?
    ensures r.Ok? ==> r.value.isActive && !r.value.isVerified && r.value.verificationStatus == "pending"
    ensures r.Ok? ==> r.value.createdAt == now && r.value.updatedAt == now
    ensures r.Ok? ==> r.value.(isActive := dto.isActive, createdAt := mappedAt, updatedAt := mappedAt)
                      == CreateFood(dto, newId, mappedAt, serialize).value
  {
    var mapped := CreateFood(dto, newId, mappedAt, serialize);
    if mapped.Err? {
      return Err(mapped.fault);
    }
    var food := mapped.value;
    food := food.(createdAt := now);
    food := food.(updatedAt := now);
    food := food.(isActive := true);
    food := food.(verificationStatus := "pending");
    food := food.(isVerified := false);
    return Ok(food);
  }
}
