/** The nutrition mapping rules: the `NutritionFacts` entity shown as its DTO
    (four columns renamed, the confidence score shown as a data-quality
    band), a facts record created from its create DTO, and the update that
    skips null members. */
module NutritionMapping {
  import opened Nullable
  import opened FoodModel

  /** The nutrient members of the nutrition DTOs, named as the DTOs name
      them. The entity's copper, manganese, selenium, biotin, pantothenic
      acid and choline columns have no DTO member. */
  datatype DtoNutrient =
    | CaloriesKcal | ProteinG | CarbsG | FatG | FiberG | SugarG | SodiumMg
    | SaturatedFatG | MonounsaturatedFatG | PolyunsaturatedFatG | TransFatG | CholesterolMg
    | CalciumMg | IronMg | MagnesiumMg | PhosphorusMg | PotassiumMg | ZincMg
    | VitaminAMcg | VitaminB1Mg | VitaminB2Mg | VitaminB3Mg | VitaminB6Mg | VitaminB12Mcg
    | VitaminCMg | VitaminDMcg | VitaminEMg | VitaminKMcg | FolateMcg

  /** The entity columns without a DTO member. */
  const TraceColumns: set<Nutrient> :=
    {Nutrient.CopperMg, Nutrient.ManganeseMg, Nutrient.SeleniumMcg,
     Nutrient.BiotinMcg, Nutrient.PantothenicAcidMg, Nutrient.CholineMg}

  /** The entity column a DTO member is read from and written to: `CarbsG`
      is `CarbohydrateG` and vitamins B1, B2 and B3 are thiamine, riboflavin
      and niacin; every other member has the entity column of its own name. */
  function EntityColumn(d: DtoNutrient): (r: Nutrient)
    ensures r !in TraceColumns
  {
    match d
    case CaloriesKcal => Nutrient.CaloriesKcal
    case ProteinG => Nutrient.ProteinG
    case CarbsG => Nutrient.CarbohydrateG
    case FatG => Nutrient.FatG
    case FiberG => Nutrient.FiberG
    case SugarG => Nutrient.SugarG
    case SodiumMg => Nutrient.SodiumMg
    case SaturatedFatG => Nutrient.SaturatedFatG
    case MonounsaturatedFatG => Nutrient.MonounsaturatedFatG
    case PolyunsaturatedFatG => Nutrient.PolyunsaturatedFatG
    case TransFatG => Nutrient.TransFatG
    case CholesterolMg => Nutrient.CholesterolMg
    case CalciumMg => Nutrient.CalciumMg
    case IronMg => Nutrient.IronMg
    case MagnesiumMg => Nutrient.MagnesiumMg
    case PhosphorusMg => Nutrient.PhosphorusMg
    case PotassiumMg => Nutrient.PotassiumMg
    case ZincMg => Nutrient.ZincMg
    case VitaminAMcg => Nutrient.VitaminAMcg
    case VitaminB1Mg => Nutrient.ThiamineMg
    case VitaminB2Mg => Nutrient.RiboflavinMg
    case VitaminB3Mg => Nutrient.NiacinMg
    case VitaminB6Mg => Nutrient.VitaminB6Mg
    case VitaminB12Mcg => Nutrient.VitaminB12Mcg
    case VitaminCMg => Nutrient.VitaminCMg
    case VitaminDMcg => Nutrient.VitaminDMcg
    case VitaminEMg => Nutrient.VitaminEMg
    case VitaminKMcg => Nutrient.VitaminKMcg
    case FolateMcg => Nutrient.FolateMcg
  }

  /** The DTO member showing an entity column, if it has one: the inverse
      of `EntityColumn`. */
  function DtoColumn(n: Nutrient): (r: Option<DtoNutrient>)
    ensures r.None? <==> n in TraceColumns
    ensures r.Some? ==> EntityColumn(r.value) == n
  {
    match n
    case CaloriesKcal => Some(DtoNutrient.CaloriesKcal)
    case ProteinG => Some(DtoNutrient.ProteinG)
    case FatG => Some(DtoNutrient.FatG)
    case CarbohydrateG => Some(DtoNutrient.CarbsG)
    case FiberG => Some(DtoNutrient.FiberG)
    case SugarG => Some(DtoNutrient.SugarG)
    case SaturatedFatG => Some(DtoNutrient.SaturatedFatG)
    case MonounsaturatedFatG => Some(DtoNutrient.MonounsaturatedFatG)
    case PolyunsaturatedFatG => Some(DtoNutrient.PolyunsaturatedFatG)
    case TransFatG => Some(DtoNutrient.TransFatG)
    case CholesterolMg => Some(DtoNutrient.CholesterolMg)
    case SodiumMg => Some(DtoNutrient.SodiumMg)
    case PotassiumMg => Some(DtoNutrient.PotassiumMg)
    case CalciumMg => Some(DtoNutrient.CalciumMg)
    case IronMg => Some(DtoNutrient.IronMg)
    case MagnesiumMg => Some(DtoNutrient.MagnesiumMg)
    case PhosphorusMg => Some(DtoNutrient.PhosphorusMg)
    case ZincMg => Some(DtoNutrient.ZincMg)
    case CopperMg => None
    case ManganeseMg => None
    case SeleniumMcg => None
    case VitaminAMcg => Some(DtoNutrient.VitaminAMcg)
    case VitaminCMg => Some(DtoNutrient.VitaminCMg)
    case VitaminDMcg => Some(DtoNutrient.VitaminDMcg)
    case VitaminEMg => Some(DtoNutrient.VitaminEMg)
    case VitaminKMcg => Some(DtoNutrient.VitaminKMcg)
    case ThiamineMg => Some(DtoNutrient.VitaminB1Mg)
    case RiboflavinMg => Some(DtoNutrient.VitaminB2Mg)
    case NiacinMg => Some(DtoNutrient.VitaminB3Mg)
    case VitaminB6Mg => Some(DtoNutrient.VitaminB6Mg)
    case FolateMcg => Some(DtoNutrient.FolateMcg)
    case VitaminB12Mcg => Some(DtoNutrient.VitaminB12Mcg)
    case BiotinMcg => None
    case PantothenicAcidMg => None
    case CholineMg => None
  }

  /** Every DTO member is shown from its own entity column, so no two DTO
      members share a column. */
  lemma RenameRoundTrip(d: DtoNutrient)
    ensures DtoColumn(EntityColumn(d)) == Some(d)
  {
  }

  /** The DTO members of a set of entity columns, renamed. */
  function ToDtoAmounts(a: Amounts): (r: map<DtoNutrient, real>)
    ensures forall d :: d in r <==> EntityColumn(d) in a
    ensures forall d :: d in r ==> r[d] == a[EntityColumn(d)]
  {
    var m := map n | n in a && DtoColumn(n).Some? :: DtoColumn(n).value := a[n];
    forall d ensures d in m <==> EntityColumn(d) in a {
      RenameRoundTrip(d);
    }
    m
  }

  /** The entity columns written from a set of DTO members, renamed. */
  function ToEntityAmounts(a: map<DtoNutrient, real>): (r: Amounts)
    ensures forall d :: d in a ==> EntityColumn(d) in r && r[EntityColumn(d)] == a[d]
    ensures forall n :: n in r ==> DtoColumn(n).Some? && DtoColumn(n).value in a && r[n] == a[DtoColumn(n).value]
  {
    EntityColumnInjective();
    map d | d in a :: EntityColumn(d) := a[d]
  }

  /** No two DTO members are written to the same entity column. */
  lemma EntityColumnInjective()
    ensures forall d1, d2 :: EntityColumn(d1) == EntityColumn(d2) ==> d1 == d2
  {
    forall d1, d2 | EntityColumn(d1) == EntityColumn(d2) ensures d1 == d2 {
      RenameRoundTrip(d1);
      RenameRoundTrip(d2);
    }
  }

  /** Writing DTO members to the entity and reading them back gives the same
      members under the same names. */
  lemma {:induction false} DtoEntityDtoRoundTrip(a: map<DtoNutrient, real>)
    ensures ToDtoAmounts(ToEntityAmounts(a)) == a
  {
    var e := ToEntityAmounts(a);
    forall d | d in a ensures EntityColumn(d) in e {
    }
  }

  /** Reading entity columns into the DTO and writing them back loses
      exactly the six columns the DTO has no member for. */
  lemma {:induction false} EntityDtoEntityRoundTrip(a: Amounts)
    ensures ToEntityAmounts(ToDtoAmounts(a)) == map n | n in a && n !in TraceColumns :: a[n]
  {
    var back := ToEntityAmounts(ToDtoAmounts(a));
    forall n | n in a && n !in TraceColumns ensures n in back {
      assert EntityColumn(DtoColumn(n).value) == n;
    }
  }

  /** The `DataQuality` band of a confidence score: "high" from 0.9,
      "medium" from 0.7, and "low" below that or when there is no score
      (a comparison with null is false). */
  function DataQuality(score: Option<real>): (r: string)
    ensures r == "high" <==> score.Some? && score.value >= 0.9
    ensures r == "medium" <==> score.Some? && 0.7 <= score.value < 0.9
    ensures r == "low" <==> score.None? || score.value < 0.7
  {
    if LiftGe(score, 0.9) then "high" else if LiftGe(score, 0.7) then "medium" else "low"
  }

  /** A score of 0.85 is shown as "medium". */
  lemma EightyFivePercentIsMedium()
    ensures DataQuality(Some(0.85)) == "medium"
  {
  }

  /** A higher score never gets a lower band. */
  lemma DataQualityMonotone(s: real, t: real)
    requires s <= t
    ensures DataQuality(Some(s)) == "high" ==> DataQuality(Some(t)) == "high"
    ensures DataQuality(Some(s)) == "medium" ==> DataQuality(Some(t)) != "low"
  {
  }

  /** The confidence score a create DTO's `DataQuality` stands for: 0.9 for
      "high", 0.7 for "medium" and 0.5 for anything else, null included. */
  function CreateConfidence(quality: Option<string>): (r: real)
    ensures quality == Some("high") <==> r == 0.9
    ensures quality == Some("medium") <==> r == 0.7
    ensures quality != Some("high") && quality != Some("medium") <==> r == 0.5
  {
    if quality == Some("high") then 0.9 else if quality == Some("medium") then 0.7 else 0.5
  }

  /** The confidence score an update DTO's `DataQuality` stands for: as on
      create for the three known bands, and null for anything else. */
  function UpdateConfidence(quality: Option<string>): (r: Option<real>)
    ensures r.None? <==> quality !in {Some("high"), Some("medium"), Some("low")}
    ensures r.Some? ==> r.value == CreateConfidence(quality)
  {
    if quality == Some("high") then Some(0.9)
    else if quality == Some("medium") then Some(0.7)
    else if quality == Some("low") then Some(0.5)
    else None
  }

  /** Each of the three bands survives the trip to a score and back. */
  lemma QualityRoundTrip(q: string)
    requires q in {"high", "medium", "low"}
    ensures DataQuality(Some(CreateConfidence(Some(q)))) == q
    ensures UpdateConfidence(Some(q)).Some? && DataQuality(UpdateConfidence(Some(q))) == q
  {
  }

  /** Any other create quality is stored as 0.5 and read back as "low". */
  lemma UnknownQualityReadsLow(quality: Option<string>)
    requires quality != Some("high") && quality != Some("medium")
    ensures DataQuality(Some(CreateConfidence(quality))) == "low"
  {
  }

  /** `NutritionFactsDto`. */
  datatype NutritionFactsDto = NutritionFactsDto(
    id: Guid,
    foodId: Guid,
    amounts: map<DtoNutrient, real>,
    dataQuality: string,
    dataSource: Option<string>,
    lastVerified: Option<Instant>,
    notes: Option<string>,
    createdAt: Instant,
    updatedAt: Instant)

  /** The entity to DTO map: nutrients renamed, the score shown as its
      band, `LastVerified` the last update time, no notes. */
  function ToNutritionFactsDto(f: NutritionFacts): (r: NutritionFactsDto)
    ensures r.id == f.id && r.foodId == f.foodId && r.dataSource == f.dataSource
    ensures r.createdAt == f.createdAt && r.updatedAt == f.updatedAt
    ensures r.amounts == ToDtoAmounts(f.amounts)
    ensures r.dataQuality == DataQuality(f.confidenceScore)
    ensures r.lastVerified == Some(f.updatedAt) && r.notes.None?
  {
    NutritionFactsDto(f.id, f.foodId, ToDtoAmounts(f.amounts), DataQuality(f.confidenceScore),
                      f.dataSource, Some(f.updatedAt), None, f.createdAt, f.updatedAt)
  }

  /** The create DTO's nutrient, quality and source members. */
  datatype CreateNutritionFactsDto = CreateNutritionFactsDto(
    amounts: map<DtoNutrient, real>,
    dataQuality: Option<string>,
    dataSource: Option<string>)

  /** The create DTO to entity map: a new id, nutrients renamed, the six
      columns without a DTO member null, `ServingSizeG` 100, the score from
      the quality band, both timestamps the current time. */
  function CreateNutritionFacts(dto: CreateNutritionFactsDto, newId: Guid, foodId: Guid, now: Instant): (r: NutritionFacts)
    ensures r.id == newId && r.foodId == foodId && r.createdAt == now && r.updatedAt == now
    ensures r.servingSizeG == Some(100.0)
    ensures r.amounts == ToEntityAmounts(dto.amounts)
    ensures forall n :: n in TraceColumns ==> n !in r.amounts
    ensures r.confidenceScore == Some(CreateConfidence(dto.dataQuality))
    ensures r.dataSource == dto.dataSource
  {
    NutritionFacts(newId, foodId, Some(100.0), ToEntityAmounts(dto.amounts), dto.dataSource,
                   Some(CreateConfidence(dto.dataQuality)), now, now)
  }

  /** A created record reads back with the nutrients it was created with,
      under the same names, and with the quality band it was created with
      when that band is "high" or "medium". */
  lemma CreatedFactsReadBack(dto: CreateNutritionFactsDto, newId: Guid, foodId: Guid, now: Instant)
    ensures ToNutritionFactsDto(CreateNutritionFacts(dto, newId, foodId, now)).amounts == dto.amounts
    ensures dto.dataQuality in {Some("high"), Some("medium")} ==>
              Some(ToNutritionFactsDto(CreateNutritionFacts(dto, newId, foodId, now)).dataQuality) == dto.dataQuality
  {
    DtoEntityDtoRoundTrip(dto.amounts);
  }

  /** `UpdateNutritionFactsDto`: every member optional. `LastVerified` and
      `Notes` have no entity column and are dropped. */
  datatype UpdateNutritionFactsDto = UpdateNutritionFactsDto(
    amounts: map<DtoNutrient, real>,
    dataQuality: Option<string>,
    dataSource: Option<string>,
    lastVerified: Option<Instant>,
    notes: Option<string>)

  /** The update DTO to entity map: a present nutrient overwrites its
      (renamed) column and a null one leaves it; the score changes only for
      a known quality band; the id, the food, `ServingSizeG`, the creation
      time and the six columns without a DTO member never change;
      `UpdatedAt` becomes the current time. */
  function UpdateNutritionFacts(current: NutritionFacts, dto: UpdateNutritionFactsDto, now: Instant): (r: NutritionFacts)
    ensures r.id == current.id && r.foodId == current.foodId
    ensures r.servingSizeG == current.servingSizeG && r.createdAt == current.createdAt
    ensures r.updatedAt == now
    ensures forall d :: d in dto.amounts ==> Get(r.amounts, EntityColumn(d)) == Some(dto.amounts[d])
    ensures forall n :: n in TraceColumns ==> Get(r.amounts, n) == Get(current.amounts, n)
    ensures forall n :: (DtoColumn(n).None? || DtoColumn(n).value !in dto.amounts) ==> Get(r.amounts, n) == Get(current.amounts, n)
    ensures r.confidenceScore == if UpdateConfidence(dto.dataQuality).Some? then UpdateConfidence(dto.dataQuality) else current.confidenceScore
    ensures r.dataSource == if dto.dataSource.Some? then dto.dataSource else current.dataSource
  {
    current.(amounts := current.amounts + ToEntityAmounts(dto.amounts),
             confidenceScore := if UpdateConfidence(dto.dataQuality).Some? then UpdateConfidence(dto.dataQuality) else current.confidenceScore,
             dataSource := if dto.dataSource.Some? then dto.dataSource else current.dataSource,
             updatedAt := now)
  }

  /** An unknown quality maps to null, which the null-skip drops: the score
      stays as it was. */
  lemma UnknownQualityKeepsScore(current: NutritionFacts, dto: UpdateNutritionFactsDto, now: Instant)
    requires dto.dataQuality.Some? && dto.dataQuality.value !in {"high", "medium", "low"}
    ensures UpdateNutritionFacts(current, dto, now).confidenceScore == current.confidenceScore
  {
  }

  /** An update of nothing only moves the timestamp. */
  lemma EmptyNutritionUpdate(current: NutritionFacts, now: Instant)
    ensures UpdateNutritionFacts(current, UpdateNutritionFactsDto(map[], None, None, None, None), now)
            == current.(updatedAt := now)
  {
    var e := ToEntityAmounts(map[]);
    assert forall n :: n !in e;
    assert current.amounts + e == current.amounts;
  }

  /** Applying the same update twice is applying it once. */
  lemma NutritionUpdateIdempotent(current: NutritionFacts, dto: UpdateNutritionFactsDto, now: Instant)
    ensures UpdateNutritionFacts(UpdateNutritionFacts(current, dto, now), dto, now) == UpdateNutritionFacts(current, dto, now)
  {
    var once := UpdateNutritionFacts(current, dto, now);
    var e := ToEntityAmounts(dto.amounts);
    assert once.amounts + e == once.amounts;
  }

  /** After an update, the DTO shows every updated nutrient with the value
      it was given, under the same name. */
  lemma UpdatedNutrientsReadBack(current: NutritionFacts, dto: UpdateNutritionFactsDto, now: Instant, d: DtoNutrient)
    requires d in dto.amounts
    ensures var shown := ToNutritionFactsDto(UpdateNutritionFacts(current, dto, now)).amounts;
            d in shown && shown[d] == dto.amounts[d]
  {
  }
}
