/** The nutrition calculation service: scaling a food's per-100 g facts to a
    serving, daily-value percentages with their band and recommendation,
    the profile-based recommended serving, recipe totals, multi-food
    comparison, the nutrient-density score, the alternative-serving list and
    the daily-value list of a serving. The database is the `FoodStore` value
    the methods receive. */
module NutritionCalculation {
  import opened Nullable
  import opened FoodModel
  import Strings

  // ---------------------------------------------------------------------------
  // Reference data
  // ---------------------------------------------------------------------------

  /** Daily reference amounts for a 2000 kcal diet, keyed by nutrient type. */
  const DailyValues: map<string, real> := map[
    "Protein" := 50.0, "Carbs" := 300.0, "Fat" := 65.0, "Fiber" := 25.0,
    "Sugar" := 50.0, "Sodium" := 2300.0, "Cholesterol" := 300.0, "SaturatedFat" := 20.0,
    "VitaminA" := 900.0, "VitaminC" := 90.0, "VitaminD" := 20.0, "VitaminE" := 15.0,
    "VitaminK" := 120.0, "VitaminB1" := 1.2, "VitaminB2" := 1.3, "VitaminB3" := 16.0,
    "VitaminB6" := 1.7, "VitaminB12" := 2.4, "Folate" := 400.0, "Biotin" := 30.0,
    "PantothenicAcid" := 5.0, "Choline" := 550.0,
    "Calcium" := 1000.0, "Iron" := 18.0, "Magnesium" := 400.0, "Phosphorus" := 700.0,
    "Potassium" := 3500.0, "Zinc" := 11.0, "Copper" := 0.9, "Manganese" := 2.3,
    "Selenium" := 55.0]

  /** Every reference amount is positive, so the percentage is always defined. */
  lemma DailyValuesPositive()
    ensures forall t :: t in DailyValues ==> DailyValues[t] > 0.0
  {
  }

  /** The nutrient columns a `ServingNutritionResponse` carries; its `CarbsG`
      is the entity's `CarbohydrateG`. */
  const ServingFields: set<Nutrient> := {
    CaloriesKcal, ProteinG, CarbohydrateG, FatG, FiberG, SugarG, SodiumMg, CalciumMg,
    IronMg, VitaminCMg, VitaminAMcg, SaturatedFatG, CholesterolMg, PotassiumMg,
    MagnesiumMg, ZincMg, VitaminB6Mg, VitaminB12Mcg, FolateMcg, BiotinMcg, CholineMg,
    CopperMg, ManganeseMg, SeleniumMcg, PantothenicAcidMg}

  // ---------------------------------------------------------------------------
  // Scaling a food to a serving
  // ---------------------------------------------------------------------------

  /** `ServingNutritionResponse`. */
  datatype ServingNutrition = ServingNutrition(
    foodId: Guid,
    foodName: string,
    servingGrams: real,
    servingDescription: Label,
    multiplier: real,
    amounts: Amounts)

  /** The active food `id` exists and has a nutrition-facts row. */
  predicate HasFacts(store: FoodStore, id: Guid)
  {
    FindActive(store, id).Some? && FindActive(store, id).value.nutritionFacts.Some?
  }

  /** The per-100 g amounts of a food that has facts. */
  function FactsOf(store: FoodStore, id: Guid): Amounts
    requires HasFacts(store, id)
  {
    store[id].nutritionFacts.value.amounts
  }

  /** Each listed column multiplied by `m` with null propagated; columns that
      are not listed are absent. */
  function ScaleAmounts(a: Amounts, fields: set<Nutrient>, m: real): (r: Amounts)
    ensures r.Keys == a.Keys * fields
    ensures forall n :: n in r ==> r[n] == a[n] * m
  {
    map n | n in a && n in fields :: a[n] * m
  }

  /** The label of a serving: the food's default description when the grams
      are within 0.1 of its default serving (or "{g}g" when it has no
      description), "{g}g" otherwise. */
  function ServingDescription(food: Food, grams: real): (r: Label)
    ensures r != GramsText(grams) ==>
              && food.servingSizeGrams.Some?
              && Abs(grams - food.servingSizeGrams.value) < 0.1
              && food.servingSizeDescription.Some?
              && r == Text(food.servingSizeDescription.value)
    ensures food.servingSizeGrams.Some? && Abs(grams - food.servingSizeGrams.value) < 0.1
            && food.servingSizeDescription.Some? ==>
              r == Text(food.servingSizeDescription.value)
    ensures food.servingSizeGrams.None? || Abs(grams - food.servingSizeGrams.value) >= 0.1
            || food.servingSizeDescription.None? ==>
              r == GramsText(grams)
  {
    if food.servingSizeGrams.Some? && Abs(grams - food.servingSizeGrams.value) < 0.1 then
      if food.servingSizeDescription.Some? then Text(food.servingSizeDescription.value) else GramsText(grams)
    else
      GramsText(grams)
  }

  function Abs(x: real): real
  {
    if x < 0.0 then -x else x
  }

  /** `CalculateNutritionForServingAsync`: none for a missing, inactive or
      fact-less food; otherwise every response column is the stored per-100 g
      value times grams/100, a null column staying null. */
  function CalculateNutritionForServing(store: FoodStore, foodId: Guid, grams: real): (r: Option<ServingNutrition>)
    ensures r.Some? <==> HasFacts(store, foodId)
    ensures r.Some? ==>
              && r.value.foodId == foodId
              && r.value.foodName == store[foodId].name
              && r.value.servingGrams == grams
              && r.value.multiplier == grams / 100.0
              && r.value.servingDescription == ServingDescription(store[foodId], grams)
              && r.value.amounts == ScaleAmounts(FactsOf(store, foodId), ServingFields, r.value.multiplier)
  {
    if !HasFacts(store, foodId) then None
    else
      var food := store[foodId];
      var multiplier := grams / 100.0;
      Some(ServingNutrition(
        foodId, food.name, grams, ServingDescription(food, grams), multiplier,
        ScaleAmounts(FactsOf(store, foodId), ServingFields, multiplier)))
  }

  /** At 100 g the serving carries the stored values unchanged. */
  lemma ScaleIdentity(store: FoodStore, id: Guid)
    requires HasFacts(store, id)
    ensures var r := CalculateNutritionForServing(store, id, 100.0);
            && r.Some? && r.value.multiplier == 1.0
            && forall n :: n in ServingFields ==> Get(r.value.amounts, n) == Get(FactsOf(store, id), n)
  {
  }

  /** Scaling is additive in grams: the serving of g1 + g2 grams has the
      same non-null columns as the servings of g1 and of g2, each the sum of
      theirs. */
  lemma ScaleAdditive(store: FoodStore, id: Guid, g1: real, g2: real)
    requires HasFacts(store, id)
    ensures var r1 := CalculateNutritionForServing(store, id, g1).value.amounts;
            var r2 := CalculateNutritionForServing(store, id, g2).value.amounts;
            var r := CalculateNutritionForServing(store, id, g1 + g2).value.amounts;
            && r.Keys == r1.Keys == r2.Keys
            && forall n :: n in r ==> r[n] == r1[n] + r2[n]
  {
    var a := FactsOf(store, id);
    var r := CalculateNutritionForServing(store, id, g1 + g2).value.amounts;
    var m1, m2 := g1 / 100.0, g2 / 100.0;
    assert (g1 + g2) / 100.0 == m1 + m2;
    forall n | n in r
      ensures a[n] * (m1 + m2) == a[n] * m1 + a[n] * m2
    {
      var c := a[n];
      assert c * (m1 + m2) == c * m1 + c * m2;
    }
  }

  /** A food stored with 130 kcal per 100 g gives 195 kcal for 150 g. */
  lemma ScaleRiceExample(store: FoodStore, id: Guid)
    requires HasFacts(store, id)
    requires Get(FactsOf(store, id), CaloriesKcal) == Some(130.0)
    ensures CalculateNutritionForServing(store, id, 150.0).value.amounts[CaloriesKcal] == 195.0
  {
  }

  // ---------------------------------------------------------------------------
  // Daily-value percentage
  // ---------------------------------------------------------------------------

  /** `Math.Round(y)` with the default midpoint rule (half to even). */
  function RoundHalfEven(y: real): (n: int)
    ensures -0.5 <= y - n as real <= 0.5
    ensures (y - n as real == 0.5 || y - n as real == -0.5) ==> n % 2 == 0
  {
    var f := y.Floor;
    var frac := y - f as real;
    if frac < 0.5 then f
    else if frac > 0.5 then f + 1
    else if f % 2 == 0 then f
    else f + 1
  }

  /** Rounding to the nearest integer never reverses order. */
  lemma RoundHalfEvenMonotone(x: real, y: real)
    requires x <= y
    ensures RoundHalfEven(x) <= RoundHalfEven(y)
  {
  }

  /** `Math.Round(x, 1)`: the multiple of 0.1 nearest to `x`, ties to even. */
  function RoundOneDecimal(x: real): (r: real)
    ensures -0.05 <= r - x <= 0.05
  {
    RoundHalfEven(x * 10.0) as real / 10.0
  }

  lemma RoundOneDecimalMonotone(x: real, y: real)
    requires x <= y
    ensures RoundOneDecimal(x) <= RoundOneDecimal(y)
  {
    RoundHalfEvenMonotone(x * 10.0, y * 10.0);
  }

  /** The four bands of a percentage. */
  datatype Band = Low | Medium | High | VeryHigh
  {
    /** `Category`. */
    function Code(): string
    {
      match this
      case Low => "low"
      case Medium => "medium"
      case High => "high"
      case VeryHigh => "very_high"
    }

    /** `CategoryVi`. */
    function CodeVi(): string
    {
      match this
      case Low => "thấp"
      case Medium => "trung bình"
      case High => "cao"
      case VeryHigh => "rất cao"
    }

    function Rank(): nat
    {
      match this
      case Low => 0
      case Medium => 1
      case High => 2
      case VeryHigh => 3
    }
  }

  /** `GetNutrientCategory`: [.., 5) low, [5, 15) medium, [15, 25) high,
      [25, ..) very high. */
  function NutrientCategory(p: real): (b: Band)
    ensures b == Low <==> p < 5.0
    ensures b == Medium <==> 5.0 <= p < 15.0
    ensures b == High <==> 15.0 <= p < 25.0
    ensures b == VeryHigh <==> 25.0 <= p
  {
    if p < 5.0 then Low
    else if p < 15.0 then Medium
    else if p < 25.0 then High
    else VeryHigh
  }

  /** A larger percentage never falls in a lower band. */
  lemma NutrientCategoryMonotone(p: real, q: real)
    requires p <= q
    ensures NutrientCategory(p).Rank() <= NutrientCategory(q).Rank()
  {
  }

  /** The threshold above which `GetHealthRecommendation` speaks for a
      nutrient type; none for every other type. */
  function RecommendationThreshold(t: string): (r: Option<real>)
  {
    if t == "Sodium" then Some(20.0)
    else if t == "SaturatedFat" then Some(15.0)
    else if t in {"Fiber", "Protein", "VitaminC", "Calcium", "Iron"} then Some(20.0)
    else None
  }

  /** `GetHealthRecommendation`. */
  function HealthRecommendation(t: string, p: real): Option<string>
  {
    if t == "Sodium" && p > 20.0 then Some("High sodium content. Consider limiting intake.")
    else if t == "SaturatedFat" && p > 15.0 then Some("High saturated fat. Consider moderation.")
    else if t == "Fiber" && p > 20.0 then Some("Good source of fiber!")
    else if t == "Protein" && p > 20.0 then Some("High protein content!")
    else if t == "VitaminC" && p > 20.0 then Some("Good source of Vitamin C!")
    else if t == "Calcium" && p > 20.0 then Some("Good source of calcium!")
    else if t == "Iron" && p > 20.0 then Some("Good source of iron!")
    else None
  }

  /** `GetHealthRecommendationVi`. */
  function HealthRecommendationVi(t: string, p: real): Option<string>
  {
    if t == "Sodium" && p > 20.0 then Some("Hàm lượng natri cao. Nên hạn chế sử dụng.")
    else if t == "SaturatedFat" && p > 15.0 then Some("Chất béo bão hòa cao. Nên ăn vừa phải.")
    else if t == "Fiber" && p > 20.0 then Some("Nguồn chất xơ tốt!")
    else if t == "Protein" && p > 20.0 then Some("Hàm lượng protein cao!")
    else if t == "VitaminC" && p > 20.0 then Some("Nguồn Vitamin C tốt!")
    else if t == "Calcium" && p > 20.0 then Some("Nguồn canxi tốt!")
    else if t == "Iron" && p > 20.0 then Some("Nguồn sắt tốt!")
    else None
  }

  /** A recommendation exists, in either language, exactly when the nutrient
      type has a threshold and the percentage is strictly above it. */
  lemma HealthRecommendationExactly(t: string, p: real)
    ensures HealthRecommendation(t, p).Some? <==>
              RecommendationThreshold(t).Some? && p > RecommendationThreshold(t).value
    ensures HealthRecommendationVi(t, p).Some? <==> HealthRecommendation(t, p).Some?
  {
  }

  /** `GetNutrientInfo`: the unit and Vietnamese name of a nutrient type; an
      unlisted type gets an empty unit and its own name. */
  function NutrientInfo(t: string): (r: (string, string))
    ensures t !in NutrientInfoTypes ==> r == ("", t)
  {
    if t == "Protein" then ("g", "Protein")
    else if t == "Carbs" then ("g", "Carbohydrate")
    else if t == "Fat" then ("g", "Chất béo")
    else if t == "Fiber" then ("g", "Chất xơ")
    else if t == "Sugar" then ("g", "Đường")
    else if t == "Sodium" then ("mg", "Natri")
    else if t == "Calcium" then ("mg", "Canxi")
    else if t == "Iron" then ("mg", "Sắt")
    else if t == "VitaminC" then ("mg", "Vitamin C")
    else if t == "VitaminA" then ("mcg", "Vitamin A")
    else if t == "VitaminD" then ("mcg", "Vitamin D")
    else if t == "VitaminE" then ("mg", "Vitamin E")
    else if t == "VitaminK" then ("mcg", "Vitamin K")
    else if t == "Potassium" then ("mg", "Kali")
    else if t == "Magnesium" then ("mg", "Magiê")
    else if t == "Zinc" then ("mg", "Kẽm")
    else if t == "Copper" then ("mg", "Đồng")
    else if t == "Manganese" then ("mg", "Mangan")
    else if t == "Selenium" then ("mcg", "Selen")
    else if t == "Biotin" then ("mcg", "Biotin")
    else if t == "PantothenicAcid" then ("mg", "Acid Pantothenic")
    else if t == "Choline" then ("mg", "Choline")
    else ("", t)
  }

  const NutrientInfoTypes: set<string> := {
    "Protein", "Carbs", "Fat", "Fiber", "Sugar", "Sodium", "Calcium", "Iron", "VitaminC",
    "VitaminA", "VitaminD", "VitaminE", "VitaminK", "Potassium", "Magnesium", "Zinc",
    "Copper", "Manganese", "Selenium", "Biotin", "PantothenicAcid", "Choline"}

  /** `DailyValuePercentageResponse`; `category` gives both the `Category`
      and the `CategoryVi` strings. */
  datatype DailyValuePercentage = DailyValuePercentage(
    nutrientName: string,
    nutrientNameVi: string,
    nutrientValue: real,
    unit: string,
    dailyValueReference: real,
    percentage: real,
    category: Band,
    healthRecommendation: Option<string>,
    healthRecommendationVi: Option<string>)

  /** `new DailyValuePercentageResponse()`: every string empty. */
  const EmptyDailyValue := DailyValuePercentage("", "", 0.0, "", 0.0, 0.0, Low, None, None)

  /** `GetDailyValuePercentageAsync`: none for a type outside the table.
      The displayed percentage is rounded to one decimal; the band and the
      recommendation are taken from the unrounded percentage. */
  function GetDailyValuePercentage(value: real, t: string): (r: Option<DailyValuePercentage>)
    ensures r.Some? <==> t in DailyValues
    ensures r.Some? ==>
              var exact := value / DailyValues[t] * 100.0;
              && r.value.nutrientName == t
              && (r.value.unit, r.value.nutrientNameVi) == NutrientInfo(t)
              && r.value.nutrientValue == value
              && r.value.dailyValueReference == DailyValues[t]
              && -0.05 <= r.value.percentage - exact <= 0.05
              && r.value.category == NutrientCategory(exact)
              && (r.value.healthRecommendation.Some? <==>
                    RecommendationThreshold(t).Some? && exact > RecommendationThreshold(t).value)
              && r.value.healthRecommendation == HealthRecommendation(t, exact)
              && r.value.healthRecommendationVi == HealthRecommendationVi(t, exact)
  {
    if t !in DailyValues then None
    else
      DailyValuesPositive();
      var dailyValue := DailyValues[t];
      var percentage := value / dailyValue * 100.0;
      var info := NutrientInfo(t);
      HealthRecommendationExactly(t, percentage);
      Some(DailyValuePercentage(
        t, info.1, value, info.0, dailyValue, RoundOneDecimal(percentage),
        NutrientCategory(percentage),
        HealthRecommendation(t, percentage), HealthRecommendationVi(t, percentage)))
  }

  /** For a fixed nutrient type a larger amount never gives a smaller
      displayed percentage or a lower band. */
  lemma DailyValueMonotone(v: real, w: real, t: string)
    requires t in DailyValues
    requires v <= w
    ensures GetDailyValuePercentage(v, t).value.percentage <= GetDailyValuePercentage(w, t).value.percentage
    ensures GetDailyValuePercentage(v, t).value.category.Rank() <= GetDailyValuePercentage(w, t).value.category.Rank()
  {
    DailyValuesPositive();
    var d := DailyValues[t];
    DivideMonotone(v, w, d);
    DailyValueShown(v, t);
    DailyValueShown(w, t);
    RoundOneDecimalMonotone(v / d * 100.0, w / d * 100.0);
    NutrientCategoryMonotone(v / d * 100.0, w / d * 100.0);
  }

  /** The unrounded percentage of the reference amount. */
  function ExactPercentage(value: real, t: string): real
    requires t in DailyValues
  {
    DailyValuesPositive();
    value / DailyValues[t] * 100.0
  }

  /** The displayed percentage is the exact one rounded to one decimal. */
  lemma DailyValueShown(value: real, t: string)
    requires t in DailyValues
    ensures var r := GetDailyValuePercentage(value, t);
            r.Some? && r.value.percentage == RoundOneDecimal(ExactPercentage(value, t))
  {
  }

  /** 2760 mg of sodium is 120% of 2300 mg: shown as 120.0, very high, with
      the sodium caution. */
  lemma DailyValueSodiumExample()
    ensures var r := GetDailyValuePercentage(2760.0, "Sodium");
            && r.Some? && r.value.percentage == 120.0 && r.value.category == VeryHigh
            && r.value.healthRecommendation == Some("High sodium content. Consider limiting intake.")
  {
    assert 2760.0 / 2300.0 * 100.0 == 120.0;
    assert (1200.0).Floor == 1200;
  }

  /** The band is taken before rounding: 2.48 g of protein is 4.96%, shown as
      5.0 yet banded low, while 5.0% itself is medium. */
  lemma BandUsesUnroundedPercentage()
    ensures var r := GetDailyValuePercentage(2.48, "Protein");
            && r.Some? && r.value.percentage == 5.0 && r.value.category == Low
            && NutrientCategory(r.value.percentage) == Medium
  {
    assert 2.48 / 50.0 * 100.0 == 4.96;
    assert (49.6).Floor == 49;
  }

  // ---------------------------------------------------------------------------
  // Recommended serving for a user profile
  // ---------------------------------------------------------------------------

  /** `CalculateRecommendedServingSize`: the default serving (100 g when
      unset) scaled by the profile's factor. The category name the source
      computes is never used. */
  function CalculateRecommendedServingSize(food: Food, userProfile: string): (g: real)
    ensures var b := food.servingSizeGrams.OrElse(100.0);
            g == b * ProfileFactor(userProfile)
  {
    var baseServing := food.servingSizeGrams.OrElse(100.0);
    var profile := Strings.Lower(userProfile);
    if profile == "weight_loss" then baseServing * 0.8
    else if profile == "muscle_gain" then baseServing * 1.2
    else if profile == "maintenance" then baseServing
    else if profile == "athlete" then baseServing * 1.5
    else if profile == "elderly" then baseServing * 0.9
    else baseServing
  }

  /** The factor each profile applies (after lower-casing). */
  function ProfileFactor(userProfile: string): real
  {
    var p := Strings.Lower(userProfile);
    if p == "weight_loss" then 0.8
    else if p == "muscle_gain" then 1.2
    else if p == "athlete" then 1.5
    else if p == "elderly" then 0.9
    else 1.0
  }

  /** `GetRecommendedServingSizeAsync`. */
  function GetRecommendedServingSize(store: FoodStore, foodId: Guid, userProfile: string): (r: Option<ServingNutrition>)
    ensures r.Some? <==> HasFacts(store, foodId)
    ensures r.Some? ==>
              && r.value.foodId == foodId
              && r.value.foodName == store[foodId].name
              && r.value.servingGrams == store[foodId].servingSizeGrams.OrElse(100.0) * ProfileFactor(userProfile)
              && r.value.multiplier == r.value.servingGrams / 100.0
              && r.value.servingDescription == ServingDescription(store[foodId], r.value.servingGrams)
              && r.value.amounts == ScaleAmounts(FactsOf(store, foodId), ServingFields, r.value.multiplier)
  {
    if !HasFacts(store, foodId) then None
    else CalculateNutritionForServing(store, foodId, CalculateRecommendedServingSize(store[foodId], userProfile))
  }

  /** The food's category has no influence on the recommended serving. */
  lemma RecommendedServingIgnoresCategory(store: FoodStore, foodId: Guid, c: Option<CategoryRef>, userProfile: string)
    requires foodId in store
    ensures var other := store[foodId := store[foodId].(category := c)];
            GetRecommendedServingSize(other, foodId, userProfile).Some? ==
              GetRecommendedServingSize(store, foodId, userProfile).Some?
    ensures var other := store[foodId := store[foodId].(category := c)];
            GetRecommendedServingSize(other, foodId, userProfile).Some? ==>
              GetRecommendedServingSize(other, foodId, userProfile).value.amounts ==
              GetRecommendedServingSize(store, foodId, userProfile).value.amounts
  {
    var other := store[foodId := store[foodId].(category := c)];
    if HasFacts(store, foodId) {
      assert FactsOf(other, foodId) == FactsOf(store, foodId);
      assert CalculateRecommendedServingSize(other[foodId], userProfile) ==
             CalculateRecommendedServingSize(store[foodId], userProfile);
    }
  }

  // ---------------------------------------------------------------------------
  // Recipe totals
  // ---------------------------------------------------------------------------

  /** `RecipeIngredientRequest`. */
  datatype RecipeIngredient = RecipeIngredient(
    foodId: Guid, quantityGrams: real, ingredientName: Option<string>, order: int)

  /** The summed quantity of all ingredients, resolved or not. */
  function TotalWeight(ingredients: seq<RecipeIngredient>): real
  {
    if |ingredients| == 0 then 0.0
    else TotalWeight(ingredients[..|ingredients| - 1]) + ingredients[|ingredients| - 1].quantityGrams
  }

  /** `total.X += v.X ?? 0` on every response column. The addition is the
      lifted one, so a column whose total is null stays null. */
  function AddColumns(total: Amounts, v: Amounts): (r: Amounts)
    ensures r.Keys == total.Keys
    ensures forall n :: n in r && n in ServingFields ==> r[n] == total[n] + OrZero(Get(v, n))
  {
    map n | n in total :: if n in ServingFields then total[n] + OrZero(Get(v, n)) else total[n]
  }

  /** Every response column at zero. */
  const ZeroColumns: Amounts := map n | n in ServingFields :: 0.0

  /** The totals after folding `AddColumns` over the ingredients whose food
      resolves, starting from `start`. */
  function RecipeTotals(start: Amounts, store: FoodStore, ingredients: seq<RecipeIngredient>): Amounts
  {
    if |ingredients| == 0 then start
    else
      var previous := RecipeTotals(start, store, ingredients[..|ingredients| - 1]);
      var last := ingredients[|ingredients| - 1];
      var nutrition := CalculateNutritionForServing(store, last.foodId, last.quantityGrams);
      if nutrition.Some? then AddColumns(previous, nutrition.value.amounts) else previous
  }

  /** The columns of the totals are the columns of the starting value. */
  lemma {:induction false} RecipeTotalsKeys(start: Amounts, store: FoodStore, ingredients: seq<RecipeIngredient>)
    ensures RecipeTotals(start, store, ingredients).Keys == start.Keys
    decreases |ingredients|
  {
    if |ingredients| > 0 {
      RecipeTotalsKeys(start, store, ingredients[..|ingredients| - 1]);
    }
  }

  /** One ingredient's share of a column: its stored per-100 g value (0 when
      null) times its quantity over 100, or 0 when its food does not
      resolve. */
  function IngredientShare(store: FoodStore, ingredient: RecipeIngredient, n: Nutrient): real
  {
    if HasFacts(store, ingredient.foodId)
    then OrZero(Get(FactsOf(store, ingredient.foodId), n)) * (ingredient.quantityGrams / 100.0)
    else 0.0
  }

  /** The sum of the ingredients' shares of a column. */
  function ColumnSum(store: FoodStore, ingredients: seq<RecipeIngredient>, n: Nutrient): real
  {
    if |ingredients| == 0 then 0.0
    else ColumnSum(store, ingredients[..|ingredients| - 1], n) + IngredientShare(store, ingredients[|ingredients| - 1], n)
  }

  /** Started from zero, every total column is the sum of the ingredients'
      shares. */
  lemma {:induction false} ZeroStartedTotals(store: FoodStore, ingredients: seq<RecipeIngredient>)
    ensures var t := RecipeTotals(ZeroColumns, store, ingredients);
            && t.Keys == ServingFields
            && forall n :: n in ServingFields ==> t[n] == ColumnSum(store, ingredients, n)
    decreases |ingredients|
  {
    RecipeTotalsKeys(ZeroColumns, store, ingredients);
    if |ingredients| > 0 {
      var prefix := ingredients[..|ingredients| - 1];
      ZeroStartedTotals(store, prefix);
      var last := ingredients[|ingredients| - 1];
      var previous := RecipeTotals(ZeroColumns, store, prefix);
      var t := RecipeTotals(ZeroColumns, store, ingredients);
      var nutrition := CalculateNutritionForServing(store, last.foodId, last.quantityGrams);
      forall n | n in ServingFields
        ensures t[n] == ColumnSum(store, ingredients, n)
      {
        ShareOfServing(store, last, n);
        assert t[n] == previous[n] + IngredientShare(store, last, n);
      }
    }
  }

  /** The column a resolved ingredient's serving adds is its share; an
      unresolved ingredient has no share. */
  lemma ShareOfServing(store: FoodStore, ingredient: RecipeIngredient, n: Nutrient)
    requires n in ServingFields
    ensures var nutrition := CalculateNutritionForServing(store, ingredient.foodId, ingredient.quantityGrams);
            && (nutrition.Some? ==> OrZero(Get(nutrition.value.amounts, n)) == IngredientShare(store, ingredient, n))
            && (nutrition.None? ==> IngredientShare(store, ingredient, n) == 0.0)
  {
  }

  /** A recipe's column sum is the sum over any split of the recipe. */
  lemma {:induction false} ColumnSumAppend(store: FoodStore, a: seq<RecipeIngredient>, b: seq<RecipeIngredient>, n: Nutrient)
    ensures ColumnSum(store, a + b, n) == ColumnSum(store, a, n) + ColumnSum(store, b, n)
    decreases |b|
  {
    if |b| == 0 {
      assert a + b == a;
    } else {
      var b' := b[..|b| - 1];
      assert (a + b)[..|a + b| - 1] == a + b';
      ColumnSumAppend(store, a, b', n);
    }
  }

  /** `CalculateRecipeNutritionAsync` as written: the totals start as nulls
      and the lifted `+=` keeps them null, so every nutrient column of the
      result is null whatever the ingredients; only the weight and the
      multiplier are filled in. */
  method CalculateRecipeNutritionAsWritten(store: FoodStore, ingredients: seq<RecipeIngredient>)
    returns (r: ServingNutrition)
    ensures r.foodId == 0 && r.foodName == "Recipe Total"
    ensures r.servingDescription == Text("Toàn bộ công thức")
    ensures r.servingGrams == TotalWeight(ingredients)
    ensures r.multiplier == TotalWeight(ingredients) / 100.0
    ensures r.amounts == map[]
  {
    var totals: Amounts := map[];
    var totalWeight := 0.0;
    for i := 0 to |ingredients|
      invariant totals == map[]
      invariant totalWeight == TotalWeight(ingredients[..i])
    {
      var ingredient := ingredients[i];
      var nutrition := CalculateNutritionForServing(store, ingredient.foodId, ingredient.quantityGrams);
      if nutrition.Some? {
        totals := AddColumns(totals, nutrition.value.amounts);
      }
      assert ingredients[..i + 1][..i] == ingredients[..i];
      totalWeight := totalWeight + ingredient.quantityGrams;
    }
    assert ingredients[..|ingredients|] == ingredients;
    r := ServingNutrition(0, "Recipe Total", totalWeight, Text("Toàn bộ công thức"), totalWeight / 100.0, totals);
  }

  /** Started from nulls, the totals stay without any column whatever the
      ingredients. */
  lemma NullStartedTotals(store: FoodStore, ingredients: seq<RecipeIngredient>)
    ensures RecipeTotals(map[], store, ingredients) == map[]
  {
    RecipeTotalsKeys(map[], store, ingredients);
  }

  /** One ingredient of 100 g with 130 kcal per 100 g: the zero-started
      totals report 130 kcal, where the null-started ones report none. */
  lemma ZeroStartedSingleIngredient(store: FoodStore, ingredient: RecipeIngredient)
    requires HasFacts(store, ingredient.foodId)
    requires Get(FactsOf(store, ingredient.foodId), CaloriesKcal) == Some(130.0)
    requires ingredient.quantityGrams == 100.0
    ensures Get(RecipeTotals(ZeroColumns, store, [ingredient]), CaloriesKcal) == Some(130.0)
  {
    var ings := [ingredient];
    assert ings[..0] == [];
    ZeroStartedTotals(store, ings);
    assert ColumnSum(store, ings, CaloriesKcal) == ColumnSum(store, [], CaloriesKcal) + IngredientShare(store, ingredient, CaloriesKcal);
  }

  /** `CalculateRecipeNutritionAsync` with the totals started at zero: every
      nutrient column is the sum over the ingredients of the stored value
      times quantity/100, an unresolved ingredient contributing nothing but
      its weight. */
  method CalculateRecipeNutrition(store: FoodStore, ingredients: seq<RecipeIngredient>)
    returns (r: ServingNutrition)
    ensures r.foodId == 0 && r.foodName == "Recipe Total"
    ensures r.servingDescription == Text("Toàn bộ công thức")
    ensures r.servingGrams == TotalWeight(ingredients)
    ensures r.multiplier == TotalWeight(ingredients) / 100.0
    ensures r.amounts.Keys == ServingFields
    ensures forall n :: n in ServingFields ==> r.amounts[n] == ColumnSum(store, ingredients, n)
  {
    var totals: Amounts := ZeroColumns;
    var totalWeight := 0.0;
    for i := 0 to |ingredients|
      invariant totals == RecipeTotals(ZeroColumns, store, ingredients[..i])
      invariant totalWeight == TotalWeight(ingredients[..i])
    {
      var ingredient := ingredients[i];
      var nutrition := CalculateNutritionForServing(store, ingredient.foodId, ingredient.quantityGrams);
      if nutrition.Some? {
        totals := AddColumns(totals, nutrition.value.amounts);
      }
      assert ingredients[..i + 1][..i] == ingredients[..i];
      totalWeight := totalWeight + ingredient.quantityGrams;
    }
    assert ingredients[..|ingredients|] == ingredients;
    ZeroStartedTotals(store, ingredients);
    r := ServingNutrition(0, "Recipe Total", totalWeight, Text("Toàn bộ công thức"), totalWeight / 100.0, totals);
  }

  // ---------------------------------------------------------------------------
  // Comparison of several foods
  // ---------------------------------------------------------------------------

  /** The nutrient columns of a `FoodComparisonItem`. */
  const ComparisonFields: set<Nutrient> := {
    CaloriesKcal, ProteinG, CarbohydrateG, FatG, FiberG, SugarG, SodiumMg, CalciumMg,
    IronMg, VitaminCMg, VitaminAMcg}

  /** `FoodComparisonItem` (its always-empty `Rankings` is left out). */
  datatype ComparisonItem = ComparisonItem(
    foodId: Guid,
    foodName: string,
    foodNameVi: string,
    servingGrams: real,
    servingDescription: Label,
    amounts: Amounts)

  /** The comparison item of one requested id: none when the food is
      missing, inactive or without facts; otherwise the food at its default
      serving (100 g when unset), labelled by its description or "{g}g". */
  function ComparisonItemFor(store: FoodStore, id: Guid): (r: Option<ComparisonItem>)
    ensures r.Some? <==> HasFacts(store, id)
    ensures r.Some? ==>
              var g := store[id].servingSizeGrams.OrElse(100.0);
              && r.value.foodId == id
              && r.value.foodName == store[id].name
              && r.value.foodNameVi == store[id].nameVi
              && r.value.servingGrams == g
              && r.value.servingDescription ==
                   (if store[id].servingSizeDescription.Some? then Text(store[id].servingSizeDescription.value)
                    else GramsText(g))
              && r.value.amounts == ScaleAmounts(FactsOf(store, id), ComparisonFields, g / 100.0)
  {
    if !HasFacts(store, id) then None
    else
      var food := store[id];
      var g := food.servingSizeGrams.OrElse(100.0);
      var nutrition := CalculateNutritionForServing(store, id, g).value;
      RestrictScaled(FactsOf(store, id), g / 100.0);
      Some(ComparisonItem(
        id, food.name, food.nameVi, g,
        if food.servingSizeDescription.Some? then Text(food.servingSizeDescription.value) else GramsText(g),
        Restrict(nutrition.amounts, ComparisonFields)))
  }

  /** Every comparison column is a serving column, so cutting a scaled
      serving down to the comparison columns is scaling those columns. */
  lemma RestrictScaled(a: Amounts, m: real)
    ensures Restrict(ScaleAmounts(a, ServingFields, m), ComparisonFields) == ScaleAmounts(a, ComparisonFields, m)
  {
    assert ComparisonFields <= ServingFields;
    var x := Restrict(ScaleAmounts(a, ServingFields, m), ComparisonFields);
    var y := ScaleAmounts(a, ComparisonFields, m);
    assert x.Keys == y.Keys;
  }

  /** The columns of `a` that are in `fields`, copied. */
  function Restrict(a: Amounts, fields: set<Nutrient>): (r: Amounts)
    ensures r.Keys == a.Keys * fields
    ensures forall n :: n in r ==> r[n] == a[n]
  {
    map n | n in a && n in fields :: a[n]
  }

  /** The items of the requested ids, in request order. */
  function ComparisonItems(store: FoodStore, ids: seq<Guid>): seq<ComparisonItem>
  {
    if |ids| == 0 then []
    else
      var previous := ComparisonItems(store, ids[..|ids| - 1]);
      var item := ComparisonItemFor(store, ids[|ids| - 1]);
      if item.Some? then previous + [item.value] else previous
  }

  /** Requests are answered in order: the items of a concatenation of id
      lists are the items of the first list followed by those of the second. */
  lemma {:induction false} ComparisonItemsConcat(store: FoodStore, ids: seq<Guid>, more: seq<Guid>)
    ensures ComparisonItems(store, ids + more) == ComparisonItems(store, ids) + ComparisonItems(store, more)
    decreases |more|
  {
    if |more| == 0 {
      assert ids + more == ids;
    } else {
      var init := more[..|more| - 1];
      ComparisonItemsConcat(store, ids, init);
      assert (ids + more)[..|ids + more| - 1] == ids + init;
      assert (ids + more)[|ids + more| - 1] == more[|more| - 1];
    }
  }

  /** Every item comes from a requested id that has facts and is that id's
      item; every requested id with facts has an item; unusable ids are
      skipped, so there are never more items than ids. */
  lemma {:induction false} ComparisonItemsExactly(store: FoodStore, ids: seq<Guid>)
    ensures var items := ComparisonItems(store, ids);
            && |items| <= |ids|
            && (forall k :: 0 <= k < |items| ==>
                  items[k].foodId in ids && ComparisonItemFor(store, items[k].foodId) == Some(items[k]))
            && (forall id :: id in ids ==>
                  (HasFacts(store, id) <==> exists k :: 0 <= k < |items| && items[k].foodId == id))
    decreases |ids|
  {
    if |ids| > 0 {
      var prefix := ids[..|ids| - 1];
      ComparisonItemsExactly(store, prefix);
      assert ids == prefix + [ids[|ids| - 1]];
      var items := ComparisonItems(store, ids);
      var previous := ComparisonItems(store, prefix);
      forall id | id in ids
        ensures HasFacts(store, id) <==> exists k :: 0 <= k < |items| && items[k].foodId == id
      {
        if HasFacts(store, id) {
          if id in prefix {
            var k :| 0 <= k < |previous| && previous[k].foodId == id;
            assert items[k] == previous[k];
          } else {
            assert id == ids[|ids| - 1];
            assert items[|items| - 1].foodId == id;
          }
        } else {
          forall k | 0 <= k < |items|
            ensures items[k].foodId != id
          {
            if k < |previous| {
              assert items[k] == previous[k];
            }
          }
        }
      }
    }
  }

  /** The insights of a comparison: which foods have more than 1.5 times
      the average calories, which less than half of it, and which more than
      10 g of protein per serving. Each text is the fixed prefix
      ("Thực phẩm có calories cao nhất: ", "Thực phẩm có calories thấp nhất: ",
      "Nguồn protein tốt: ") followed by the Vietnamese names joined by ", ". */
  datatype Insight =
    | HighestCalories(names: seq<string>)
    | LowestCalories(names: seq<string>)
    | GoodProtein(names: seq<string>)

  /** `ComparisonSummary`. */
  datatype ComparisonSummary = ComparisonSummary(
    highestCaloriesFood: Option<string>,
    highestProteinFood: Option<string>,
    lowestCaloriesFood: Option<string>,
    lowestFatFood: Option<string>,
    averageCalories: real,
    averageProtein: real,
    insights: seq<Insight>)

  /** `new ComparisonSummary()`. */
  const EmptySummary := ComparisonSummary(None, None, None, None, 0.0, 0.0, [])

  /** `NutritionComparisonResponse`. */
  datatype NutritionComparison = NutritionComparison(foods: seq<ComparisonItem>, summary: ComparisonSummary)

  /** The sort key `f => f.X ?? 0` of every item. */
  function ColumnKeys(foods: seq<ComparisonItem>, n: Nutrient): (k: seq<real>)
    ensures |k| == |foods|
    ensures forall i :: 0 <= i < |foods| ==> k[i] == OrZero(Get(foods[i].amounts, n))
  {
    seq(|foods|, i requires 0 <= i < |foods| => OrZero(Get(foods[i].amounts, n)))
  }

  /** The position `OrderByDescending(key).First()` picks: a largest key,
      the first of equals because the sort is stable. */
  function FirstMaxIndex(k: seq<real>): (r: nat)
    requires |k| > 0
    ensures r < |k|
    ensures forall i :: 0 <= i < |k| ==> k[i] <= k[r]
    ensures forall i :: 0 <= i < r ==> k[i] < k[r]
    decreases |k|
  {
    if |k| == 1 then 0
    else
      var j := FirstMaxIndex(k[..|k| - 1]);
      if k[|k| - 1] > k[j] then |k| - 1 else j
  }

  /** The position `OrderBy(key).First()` picks: a smallest key, the first
      of equals. */
  function FirstMinIndex(k: seq<real>): (r: nat)
    requires |k| > 0
    ensures r < |k|
    ensures forall i :: 0 <= i < |k| ==> k[r] <= k[i]
    ensures forall i :: 0 <= i < r ==> k[r] < k[i]
    decreases |k|
  {
    if |k| == 1 then 0
    else
      var j := FirstMinIndex(k[..|k| - 1]);
      if k[|k| - 1] < k[j] then |k| - 1 else j
  }

  function Sum(k: seq<real>): real
  {
    if |k| == 0 then 0.0 else Sum(k[..|k| - 1]) + k[|k| - 1]
  }

  /** `Average`. */
  function Mean(k: seq<real>): real
    requires |k| > 0
  {
    Sum(k) / |k| as real
  }

  /** A sum of values between `lo` and `hi` lies between |k|·lo and |k|·hi. */
  lemma {:induction false} SumBetween(k: seq<real>, lo: real, hi: real)
    requires forall i :: 0 <= i < |k| ==> lo <= k[i] <= hi
    ensures |k| as real * lo <= Sum(k) <= |k| as real * hi
    decreases |k|
  {
    if |k| > 0 {
      SumBetween(k[..|k| - 1], lo, hi);
      assert |k| as real * lo == (|k| - 1) as real * lo + lo;
      assert |k| as real * hi == (|k| - 1) as real * hi + hi;
    }
  }

  /** The average lies between the smallest and the largest value. */
  lemma MeanBetween(k: seq<real>)
    requires |k| > 0
    ensures k[FirstMinIndex(k)] <= Mean(k) <= k[FirstMaxIndex(k)]
  {
    MeanBounds(k, k[FirstMinIndex(k)], k[FirstMaxIndex(k)]);
  }

  /** The average of values between `lo` and `hi` is between them. */
  lemma MeanBounds(k: seq<real>, lo: real, hi: real)
    requires |k| > 0
    requires forall i :: 0 <= i < |k| ==> lo <= k[i] <= hi
    ensures lo <= Mean(k) <= hi
  {
    SumBetween(k, lo, hi);
    QuotientBetween(Sum(k), |k| as real, lo, hi);
  }

  lemma QuotientBetween(x: real, c: real, lo: real, hi: real)
    requires c > 0.0
    requires c * lo <= x <= c * hi
    ensures lo <= x / c <= hi
  {
    assert x / c - lo == (x - c * lo) / c;
    assert hi - x / c == (c * hi - x) / c;
  }

  /** Whether an item's column `n` (0 when null) is above `bound` (when
      `above`) or below it (otherwise). */
  predicate Passes(item: ComparisonItem, n: Nutrient, bound: real, above: bool)
  {
    if above then OrZero(Get(item.amounts, n)) > bound else OrZero(Get(item.amounts, n)) < bound
  }

  /** The positions of the items that pass, ascending: a strictly
      increasing sequence holding every passing position and no other. */
  function PassingPositions(foods: seq<ComparisonItem>, n: Nutrient, bound: real, above: bool): (p: seq<nat>)
    ensures forall j :: 0 <= j < |p| ==> p[j] < |foods| && Passes(foods[p[j]], n, bound, above)
    ensures forall j, j' :: 0 <= j < j' < |p| ==> p[j] < p[j']
    ensures forall i :: 0 <= i < |foods| && Passes(foods[i], n, bound, above) ==> i in p
    decreases |foods|
  {
    if |foods| == 0 then []
    else
      var init := foods[..|foods| - 1];
      var rest := PassingPositions(init, n, bound, above);
      assert forall i :: 0 <= i < |init| ==> init[i] == foods[i];
      if Passes(foods[|foods| - 1], n, bound, above) then rest + [|foods| - 1] else rest
  }

  /** The names of the passing items, in order. */
  function NamesWhere(foods: seq<ComparisonItem>, n: Nutrient, bound: real, above: bool): (r: seq<string>)
    ensures var p := PassingPositions(foods, n, bound, above);
            |r| == |p| && forall j :: 0 <= j < |r| ==> r[j] == foods[p[j]].foodNameVi
    decreases |foods|
  {
    if |foods| == 0 then []
    else
      var init := foods[..|foods| - 1];
      var rest := NamesWhere(init, n, bound, above);
      assert forall i :: 0 <= i < |init| ==> init[i] == foods[i];
      if Passes(foods[|foods| - 1], n, bound, above) then rest + [foods[|foods| - 1].foodNameVi] else rest
  }

  /** A strictly increasing sequence of positions below `len` is no longer
      than `len`, and shorter when it misses one of them. */
  lemma {:induction false} IncreasingPositionsBound(p: seq<nat>, len: nat, missing: int)
    requires forall j :: 0 <= j < |p| ==> p[j] < len
    requires forall j, j' :: 0 <= j < j' < |p| ==> p[j] < p[j']
    ensures |p| <= len
    ensures 0 <= missing < len && missing !in p ==> |p| < len
    decreases |p|
  {
    if |p| > 0 {
      var last := p[|p| - 1];
      var init := p[..|p| - 1];
      assert forall j :: 0 <= j < |init| ==> init[j] == p[j];
      assert forall j :: 0 <= j < |init| ==> init[j] < last;
      if 0 <= missing < last && missing !in p {
        assert missing !in init;
        IncreasingPositionsBound(init, last, missing);
      } else {
        IncreasingPositionsBound(init, last, -1);
      }
    }
  }

  /** Some item passes exactly when some position does, and the positions
      cover every item only when every item passes. */
  lemma PassingPositionsCount(foods: seq<ComparisonItem>, n: Nutrient, bound: real, above: bool)
    ensures var p := PassingPositions(foods, n, bound, above);
            && |p| <= |foods|
            && (|p| > 0 <==> exists i :: 0 <= i < |foods| && Passes(foods[i], n, bound, above))
            && ((exists i :: 0 <= i < |foods| && !Passes(foods[i], n, bound, above)) ==> |p| < |foods|)
  {
    var p := PassingPositions(foods, n, bound, above);
    IncreasingPositionsBound(p, |foods|, -1);
    if i :| 0 <= i < |foods| && !Passes(foods[i], n, bound, above) {
      IncreasingPositionsBound(p, |foods|, i);
    }
    if |p| > 0 {
      assert Passes(foods[p[0]], n, bound, above);
    }
  }

  /** `Where(f => (f.X ?? 0) > bound)`: the Vietnamese names of the items
      whose column `n` is above `bound`, in order. */
  function NamesAbove(foods: seq<ComparisonItem>, n: Nutrient, bound: real): (r: seq<string>)
    ensures var p := PassingPositions(foods, n, bound, true);
            |r| == |p| && forall j :: 0 <= j < |r| ==> r[j] == foods[p[j]].foodNameVi
    ensures |r| <= |foods|
    ensures |r| > 0 <==> exists i :: 0 <= i < |foods| && OrZero(Get(foods[i].amounts, n)) > bound
    ensures (exists i :: 0 <= i < |foods| && OrZero(Get(foods[i].amounts, n)) <= bound) ==> |r| < |foods|
  {
    PassingPositionsCount(foods, n, bound, true);
    NamesWhere(foods, n, bound, true)
  }

  /** `Where(f => (f.X ?? 0) < bound)`: the Vietnamese names of the items
      whose column `n` is below `bound`, in order. */
  function NamesBelow(foods: seq<ComparisonItem>, n: Nutrient, bound: real): (r: seq<string>)
    ensures var p := PassingPositions(foods, n, bound, false);
            |r| == |p| && forall j :: 0 <= j < |r| ==> r[j] == foods[p[j]].foodNameVi
    ensures |r| <= |foods|
    ensures |r| > 0 <==> exists i :: 0 <= i < |foods| && OrZero(Get(foods[i].amounts, n)) < bound
    ensures (exists i :: 0 <= i < |foods| && OrZero(Get(foods[i].amounts, n)) >= bound) ==> |r| < |foods|
  {
    PassingPositionsCount(foods, n, bound, false);
    NamesWhere(foods, n, bound, false)
  }

  /** `GenerateInsights`: nothing for fewer than two foods; otherwise each
      insight only when some food qualifies, in the order high calories,
      low calories, good protein. */
  function GenerateInsights(foods: seq<ComparisonItem>): (r: seq<Insight>)
    ensures |foods| < 2 ==> r == []
    ensures |r| <= 3
    ensures forall j :: 0 <= j < |r| ==> |r[j].names| > 0
  {
    if |foods| < 2 then []
    else
      var avgCalories := Mean(ColumnKeys(foods, CaloriesKcal));
      var high := NamesAbove(foods, CaloriesKcal, avgCalories * 1.5);
      var low := NamesBelow(foods, CaloriesKcal, avgCalories * 0.5);
      var protein := NamesAbove(foods, ProteinG, 10.0);
      InsightList(high, low, protein)
  }

  /** The insights for the given name lists, each only when non-empty:
      high calories first, then low calories, good protein last. */
  function InsightList(high: seq<string>, low: seq<string>, protein: seq<string>): (r: seq<Insight>)
    ensures |r| == (if |high| > 0 then 1 else 0) + (if |low| > 0 then 1 else 0) + (if |protein| > 0 then 1 else 0)
    ensures |high| > 0 <==> |r| > 0 && r[0] == HighestCalories(high)
    ensures var j := if |high| > 0 then 1 else 0;
            |low| > 0 <==> j < |r| && r[j] == LowestCalories(low)
    ensures |protein| > 0 <==> |r| > 0 && r[|r| - 1] == GoodProtein(protein)
    ensures forall j :: 0 <= j < |r| - 1 ==> !r[j].GoodProtein?
    ensures forall j :: 0 <= j < |r| ==> |r[j].names| > 0
  {
    (if |high| > 0 then [HighestCalories(high)] else [])
    + (if |low| > 0 then [LowestCalories(low)] else [])
    + (if |protein| > 0 then [GoodProtein(protein)] else [])
  }

  /** A high-calorie insight opens the list exactly when some food has
      more than 1.5 times the average calories, and it names those foods. */
  lemma HighCalorieInsightExactly(foods: seq<ComparisonItem>)
    requires |foods| >= 2
    ensures var r := GenerateInsights(foods);
            var bound := Mean(ColumnKeys(foods, CaloriesKcal)) * 1.5;
            (exists i :: 0 <= i < |foods| && OrZero(Get(foods[i].amounts, CaloriesKcal)) > bound) <==>
              |r| > 0 && r[0] == HighestCalories(NamesAbove(foods, CaloriesKcal, bound))
  {
  }

  /** A low-calorie insight follows it (or opens the list) exactly when
      some food has less than half the average calories, and it names those
      foods. */
  lemma LowCalorieInsightExactly(foods: seq<ComparisonItem>)
    requires |foods| >= 2
    ensures var r := GenerateInsights(foods);
            var avg := Mean(ColumnKeys(foods, CaloriesKcal));
            var j := if |NamesAbove(foods, CaloriesKcal, avg * 1.5)| > 0 then 1 else 0;
            (exists i :: 0 <= i < |foods| && OrZero(Get(foods[i].amounts, CaloriesKcal)) < avg * 0.5) <==>
              j < |r| && r[j] == LowestCalories(NamesBelow(foods, CaloriesKcal, avg * 0.5))
  {
  }

  /** A good-protein insight appears exactly when some food has more than
      10 g of protein, and it then names exactly those foods, last. */
  lemma GoodProteinInsightExactly(foods: seq<ComparisonItem>)
    requires |foods| >= 2
    ensures var r := GenerateInsights(foods);
            (exists i :: 0 <= i < |foods| && OrZero(Get(foods[i].amounts, ProteinG)) > 10.0) <==>
              |r| > 0 && r[|r| - 1] == GoodProtein(NamesAbove(foods, ProteinG, 10.0))
    ensures var r := GenerateInsights(foods);
            forall j :: 0 <= j < |r| - 1 ==> !r[j].GoodProtein?
  {
  }

  /** With non-negative calories, the high-calorie insight never names
      every food: some food is at or below the average, hence not above 1.5
      times it. */
  lemma HighCalorieInsightNeverAll(foods: seq<ComparisonItem>)
    requires |foods| >= 2
    requires forall i :: 0 <= i < |foods| ==> ColumnKeys(foods, CaloriesKcal)[i] >= 0.0
    ensures var k := ColumnKeys(foods, CaloriesKcal);
            |NamesAbove(foods, CaloriesKcal, Mean(k) * 1.5)| < |foods|
  {
    var k := ColumnKeys(foods, CaloriesKcal);
    MeanBetween(k);
    var i := FirstMinIndex(k);
    assert OrZero(Get(foods[i].amounts, CaloriesKcal)) <= Mean(k) * 1.5;
  }

  /** `GenerateComparisonSummary`: the empty summary for no foods; otherwise
      the names of the first food with the most calories, the most protein,
      the fewest calories and the least fat (null columns counting as 0),
      the two averages and the insights. */
  function GenerateComparisonSummary(foods: seq<ComparisonItem>): (s: ComparisonSummary)
    ensures |foods| == 0 ==> s == EmptySummary
    ensures |foods| > 0 ==>
              var calories := ColumnKeys(foods, CaloriesKcal);
              var protein := ColumnKeys(foods, ProteinG);
              var fat := ColumnKeys(foods, FatG);
              && s.highestCaloriesFood == Some(foods[FirstMaxIndex(calories)].foodNameVi)
              && s.highestProteinFood == Some(foods[FirstMaxIndex(protein)].foodNameVi)
              && s.lowestCaloriesFood == Some(foods[FirstMinIndex(calories)].foodNameVi)
              && s.lowestFatFood == Some(foods[FirstMinIndex(fat)].foodNameVi)
              && s.averageCalories == Mean(calories)
              && s.averageProtein == Mean(protein)
              && s.insights == GenerateInsights(foods)
  {
    if |foods| == 0 then EmptySummary
    else
      var calories := ColumnKeys(foods, CaloriesKcal);
      var protein := ColumnKeys(foods, ProteinG);
      var fat := ColumnKeys(foods, FatG);
      ComparisonSummary(
        Some(foods[FirstMaxIndex(calories)].foodNameVi),
        Some(foods[FirstMaxIndex(protein)].foodNameVi),
        Some(foods[FirstMinIndex(calories)].foodNameVi),
        Some(foods[FirstMinIndex(fat)].foodNameVi),
        Mean(calories),
        Mean(protein),
        GenerateInsights(foods))
  }

  /** The average calories of a summary lie between the calories of the
      food it names lowest and of the food it names highest. */
  lemma SummaryAverageBetweenExtremes(foods: seq<ComparisonItem>)
    requires |foods| > 0
    ensures var k := ColumnKeys(foods, CaloriesKcal);
            var s := GenerateComparisonSummary(foods);
            && s.lowestCaloriesFood == Some(foods[FirstMinIndex(k)].foodNameVi)
            && s.highestCaloriesFood == Some(foods[FirstMaxIndex(k)].foodNameVi)
            && k[FirstMinIndex(k)] <= s.averageCalories <= k[FirstMaxIndex(k)]
  {
    MeanBetween(ColumnKeys(foods, CaloriesKcal));
  }

  /** `GetNutritionComparisonAsync`: the items of the requested ids that
      resolve, in request order, and their summary. */
  method GetNutritionComparison(store: FoodStore, foodIds: seq<Guid>) returns (r: NutritionComparison)
    ensures r.foods == ComparisonItems(store, foodIds)
    ensures r.summary == GenerateComparisonSummary(r.foods)
  {
    var foods: seq<ComparisonItem> := [];
    for i := 0 to |foodIds|
      invariant foods == ComparisonItems(store, foodIds[..i])
    {
      var foodId := foodIds[i];
      assert foodIds[..i + 1][..i] == foodIds[..i];
      var food := FindActive(store, foodId);
      if food.None? || food.value.nutritionFacts.None? {
        continue;
      }
      var servingGrams := food.value.servingSizeGrams.OrElse(100.0);
      var nutrition := CalculateNutritionForServing(store, foodId, servingGrams);
      if nutrition.Some? {
        var description := if food.value.servingSizeDescription.Some?
                           then Text(food.value.servingSizeDescription.value)
                           else GramsText(servingGrams);
        var amounts := Restrict(nutrition.value.amounts, ComparisonFields);
        foods := foods + [ComparisonItem(foodId, food.value.name, food.value.nameVi, servingGrams, description, amounts)];
      }
    }
    assert foodIds[..|foodIds|] == foodIds;
    r := NutritionComparison(foods, GenerateComparisonSummary(foods));
  }

  // ---------------------------------------------------------------------------
  // Nutrient-density score
  // ---------------------------------------------------------------------------

  /** The weighted sum of the eight weighted columns, null counting as 0;
      the raw score is this sum per calorie. */
  function WeightedSum(a: Amounts): real
  {
    OrZero(Get(a, ProteinG)) * 100.0 + OrZero(Get(a, FiberG)) * 100.0
    + OrZero(Get(a, VitaminCMg)) * 10.0 + OrZero(Get(a, VitaminAMcg)) * 1.0
    + OrZero(Get(a, CalciumMg)) * 10.0 + OrZero(Get(a, IronMg)) * 100.0
    - OrZero(Get(a, SodiumMg)) * 1.0 - OrZero(Get(a, SaturatedFatG)) * 50.0
  }

  /** `Math.Max(0, Math.Min(100, x))`. */
  function Clamp(x: real): (r: real)
    ensures 0.0 <= r <= 100.0
    ensures 0.0 <= x <= 100.0 ==> r == x
    ensures x < 0.0 ==> r == 0.0
    ensures x > 100.0 ==> r == 100.0
  {
    if 100.0 < x then 100.0 else if x < 0.0 then 0.0 else x
  }

  /** The density score of per-100 g amounts: 0 when calories are null or
      not positive, otherwise the clamped weighted sum per calorie. */
  function DensityScore(a: Amounts): (r: real)
    ensures 0.0 <= r <= 100.0
    ensures CaloriesKcal !in a || a[CaloriesKcal] <= 0.0 ==> r == 0.0
  {
    if CaloriesKcal !in a || a[CaloriesKcal] <= 0.0 then 0.0
    else Clamp(WeightedSum(a) / a[CaloriesKcal])
  }

  /** `CalculateNutritionDensityScoreAsync`: the density score of the
      food's 100 g serving, 0 for a food that does not resolve. */
  method CalculateNutritionDensityScore(store: FoodStore, foodId: Guid) returns (score: real)
    ensures var nutrition := CalculateNutritionForServing(store, foodId, 100.0);
            score == (if nutrition.Some? then DensityScore(nutrition.value.amounts) else 0.0)
    ensures 0.0 <= score <= 100.0
  {
    var nutrition := CalculateNutritionForServing(store, foodId, 100.0);
    if nutrition.None? || CaloriesKcal !in nutrition.value.amounts || nutrition.value.amounts[CaloriesKcal] <= 0.0 {
      return 0.0;
    }
    var a := nutrition.value.amounts;
    score := RawDensityScore(a, a[CaloriesKcal]);
    PerCalorieScoreIsWeightedSum(a, a[CaloriesKcal]);
    score := Max(0.0, Min(100.0, score));
  }

  /** The unclamped score, column by column, of amounts with positive
      calories. */
  method RawDensityScore(a: Amounts, calories: real) returns (score: real)
    requires calories > 0.0
    ensures score == PerCalorieScore(a, calories)
  {
    score := 0.0;
    if ProteinG in a { score := score + a[ProteinG] / calories * 100.0; }
    if FiberG in a { score := score + a[FiberG] / calories * 100.0; }
    if VitaminCMg in a { score := score + a[VitaminCMg] / calories * 10.0; }
    if VitaminAMcg in a { score := score + a[VitaminAMcg] / calories * 1.0; }
    if CalciumMg in a { score := score + a[CalciumMg] / calories * 10.0; }
    if IronMg in a { score := score + a[IronMg] / calories * 100.0; }
    if SodiumMg in a { score := score - a[SodiumMg] / calories * 1.0; }
    if SaturatedFatG in a { score := score - a[SaturatedFatG] / calories * 50.0; }
  }

  /** One column's contribution: its value per calorie times `k`, nothing
      when the column is null. */
  function Contribution(a: Amounts, n: Nutrient, calories: real, k: real): real
    requires calories > 0.0
  {
    if n in a then a[n] / calories * k else 0.0
  }

  /** The contributions of the eight weighted columns, in the order the
      service adds them. */
  function PerCalorieScore(a: Amounts, calories: real): real
    requires calories > 0.0
  {
    Contribution(a, ProteinG, calories, 100.0) + Contribution(a, FiberG, calories, 100.0)
    + Contribution(a, VitaminCMg, calories, 10.0) + Contribution(a, VitaminAMcg, calories, 1.0)
    + Contribution(a, CalciumMg, calories, 10.0) + Contribution(a, IronMg, calories, 100.0)
    - Contribution(a, SodiumMg, calories, 1.0) - Contribution(a, SaturatedFatG, calories, 50.0)
  }

  /** The sum of the per-calorie contributions is the weighted sum per
      calorie. */
  lemma PerCalorieScoreIsWeightedSum(a: Amounts, calories: real)
    requires calories > 0.0
    ensures PerCalorieScore(a, calories) == WeightedSum(a) / calories
  {
    var c := calories;
    var t1 := ContributionQuotient(a, ProteinG, c, 100.0);
    var t2 := ContributionQuotient(a, FiberG, c, 100.0);
    var t3 := ContributionQuotient(a, VitaminCMg, c, 10.0);
    var t4 := ContributionQuotient(a, VitaminAMcg, c, 1.0);
    var t5 := ContributionQuotient(a, CalciumMg, c, 10.0);
    var t6 := ContributionQuotient(a, IronMg, c, 100.0);
    var t7 := ContributionQuotient(a, SodiumMg, c, 1.0);
    var t8 := ContributionQuotient(a, SaturatedFatG, c, 50.0);
    SumOfQuotients(t1, t2, c);
    SumOfQuotients(t1 + t2, t3, c);
    SumOfQuotients(t1 + t2 + t3, t4, c);
    SumOfQuotients(t1 + t2 + t3 + t4, t5, c);
    SumOfQuotients(t1 + t2 + t3 + t4 + t5, t6, c);
    SumOfQuotients(t1 + t2 + t3 + t4 + t5 + t6, -t7, c);
    SumOfQuotients(t1 + t2 + t3 + t4 + t5 + t6 - t7, -t8, c);
  }

  /** A contribution is the weighted value divided by the calories. */
  lemma ContributionQuotient(a: Amounts, n: Nutrient, c: real, k: real) returns (t: real)
    requires c > 0.0
    ensures t == OrZero(Get(a, n)) * k
    ensures Contribution(a, n, c, k) == t / c
    ensures -Contribution(a, n, c, k) == -t / c
  {
    t := OrZero(Get(a, n)) * k;
  }

  lemma SumOfQuotients(x: real, y: real, c: real)
    requires c > 0.0
    ensures x / c + y / c == (x + y) / c
  {
  }

  function Min(x: real, y: real): real { if x < y then x else y }
  function Max(x: real, y: real): real { if x < y then y else x }

  lemma DivideMonotone(x: real, y: real, c: real)
    requires c > 0.0 && x <= y
    ensures x / c <= y / c
  {
  }

  /** Raising one column (other than calories) never lowers the score when
      it counts for the food and never raises it when it counts against. */
  lemma DensityMonotone(a: Amounts, n: Nutrient, v: real)
    requires n in {ProteinG, FiberG, VitaminCMg, VitaminAMcg, CalciumMg, IronMg, SodiumMg, SaturatedFatG}
    requires v >= OrZero(Get(a, n))
    ensures n in {ProteinG, FiberG, VitaminCMg, VitaminAMcg, CalciumMg, IronMg} ==>
              DensityScore(a) <= DensityScore(a[n := v])
    ensures n in {SodiumMg, SaturatedFatG} ==> DensityScore(a) >= DensityScore(a[n := v])
  {
    var b := a[n := v];
    if CaloriesKcal in a && a[CaloriesKcal] > 0.0 {
      var c := a[CaloriesKcal];
      assert b[CaloriesKcal] == c;
      WeightedSumRaised(a, n, v);
      if n in {ProteinG, FiberG, VitaminCMg, VitaminAMcg, CalciumMg, IronMg} {
        DivideMonotone(WeightedSum(a), WeightedSum(b), c);
      } else {
        DivideMonotone(WeightedSum(b), WeightedSum(a), c);
      }
    }
  }

  /** Raising one weighted column moves the weighted sum in the direction of
      its weight. */
  lemma WeightedSumRaised(a: Amounts, n: Nutrient, v: real)
    requires n in {ProteinG, FiberG, VitaminCMg, VitaminAMcg, CalciumMg, IronMg, SodiumMg, SaturatedFatG}
    requires v >= OrZero(Get(a, n))
    ensures n in {ProteinG, FiberG, VitaminCMg, VitaminAMcg, CalciumMg, IronMg} ==> WeightedSum(a) <= WeightedSum(a[n := v])
    ensures n in {SodiumMg, SaturatedFatG} ==> WeightedSum(a[n := v]) <= WeightedSum(a)
  {
    var b := a[n := v];
    assert forall m :: m != n ==> Get(b, m) == Get(a, m);
    assert Get(b, n) == Some(v);
  }

  // ---------------------------------------------------------------------------
  // Alternative servings of a food
  // ---------------------------------------------------------------------------

  /** The alternatives the JSON column yields: none when it is null, empty,
      the JSON literal `null`, or not valid JSON. */
  function ParsedAlternatives(food: Food, deserialize: string -> Deserialized): (r: seq<AlternativeServing>)
    ensures IsNullOrEmpty(food.alternativeServingSizes) ==> r == []
  {
    if IsNullOrEmpty(food.alternativeServingSizes) then []
    else
      match deserialize(food.alternativeServingSizes.value)
      case Parsed(items) => items
      case _ => []
  }

  /** The label of the default serving: its description, or "{g}g". */
  function DefaultServingLabel(food: Food): Label
    requires food.servingSizeGrams.Some?
  {
    if food.servingSizeDescription.Some? then Text(food.servingSizeDescription.value)
    else GramsText(food.servingSizeGrams.value)
  }

  /** `GetAlternativeServingSizesAsync`: an empty list for a food that does
      not resolve; otherwise the 100 g serving labelled "100g", then the
      default serving when the food has one, then one serving per parsed
      alternative, labelled by its description. A JSON error leaves the
      alternatives out; any other deserializer failure escapes. */
  method GetAlternativeServingSizes(store: FoodStore, foodId: Guid, deserialize: string -> Deserialized)
    returns (r: Result<seq<ServingNutrition>>)
    ensures !HasFacts(store, foodId) ==> r == Ok([])
    ensures r.Err? <==>
              && HasFacts(store, foodId)
              && !IsNullOrEmpty(store[foodId].alternativeServingSizes)
              && deserialize(store[foodId].alternativeServingSizes.value) == OtherError
    ensures r.Err? ==> r.fault == OtherFault
    ensures r.Ok? && HasFacts(store, foodId) ==>
              var food := store[foodId];
              var alternatives := ParsedAlternatives(food, deserialize);
              var d := if food.servingSizeGrams.Some? then 1 else 0;
              && |r.value| == 1 + d + |alternatives|
              && r.value[0] == CalculateNutritionForServing(store, foodId, 100.0).value.(servingDescription := Text("100g"))
              && (food.servingSizeGrams.Some? ==>
                    r.value[1] == CalculateNutritionForServing(store, foodId, food.servingSizeGrams.value).value
                                    .(servingDescription := DefaultServingLabel(food)))
              && forall k :: 0 <= k < |alternatives| ==>
                   r.value[1 + d + k] == CalculateNutritionForServing(store, foodId, alternatives[k].grams).value
                                           .(servingDescription := Text(alternatives[k].description))
  {
    var food := FindActive(store, foodId);
    if food.None? || food.value.nutritionFacts.None? {
      return Ok([]);
    }
    var f := food.value;
    var servingSizes: seq<ServingNutrition> := [];
    var base100g := CalculateNutritionForServing(store, foodId, 100.0);
    if base100g.Some? {
      servingSizes := servingSizes + [base100g.value.(servingDescription := Text("100g"))];
    }
    if f.servingSizeGrams.Some? {
      var defaultServing := CalculateNutritionForServing(store, foodId, f.servingSizeGrams.value);
      if defaultServing.Some? {
        var description := if f.servingSizeDescription.Some? then Text(f.servingSizeDescription.value)
                     else GramsText(f.servingSizeGrams.value);
        servingSizes := servingSizes + [defaultServing.value.(servingDescription := description)];
      }
    }
    var front := servingSizes;
    var d := |front|;
    if !IsNullOrEmpty(f.alternativeServingSizes) {
      var parsed := deserialize(f.alternativeServingSizes.value);
      if parsed.OtherError? {
        return Err(OtherFault);
      }
      if parsed.Parsed? {
        var alternativeServings := parsed.items;
        for i := 0 to |alternativeServings|
          invariant |servingSizes| == d + i
          invariant servingSizes[..d] == front
          invariant forall k :: 0 <= k < i ==>
                      servingSizes[d + k] == CalculateNutritionForServing(store, foodId, alternativeServings[k].grams).value
                                               .(servingDescription := Text(alternativeServings[k].description))
        {
          var alt := alternativeServings[i];
          var altNutrition := CalculateNutritionForServing(store, foodId, alt.grams);
          if altNutrition.Some? {
            servingSizes := servingSizes + [altNutrition.value.(servingDescription := Text(alt.description))];
          }
        }
      }
    }
    return Ok(servingSizes);
  }

  // ---------------------------------------------------------------------------
  // Daily values of a serving
  // ---------------------------------------------------------------------------

  /** The nine serving columns reported as daily values, in report order,
      each with its nutrient type. */
  const DailyValueColumns: seq<(Nutrient, string)> := [
    (ProteinG, "Protein"), (CarbohydrateG, "Carbs"), (FatG, "Fat"), (FiberG, "Fiber"),
    (SodiumMg, "Sodium"), (CalciumMg, "Calcium"), (IronMg, "Iron"), (VitaminCMg, "VitaminC"),
    (VitaminAMcg, "VitaminA")]

  /** Every reported type has a reference amount. */
  lemma DailyValueColumnsKnown()
    ensures forall c :: c in DailyValueColumns ==> c.1 in DailyValues && c.1 != ""
  {
  }

  /** The entry one non-null column contributes: its daily-value response,
      or the empty response for a type outside the reference table. */
  function DailyValueEntry(a: Amounts, column: (Nutrient, string)): DailyValuePercentage
    requires column.0 in a
  {
    GetDailyValuePercentage(a[column.0], column.1).OrElse(EmptyDailyValue)
  }

  /** One entry per listed column that is not null, in column order. */
  function DailyValueEntries(a: Amounts, columns: seq<(Nutrient, string)>): seq<DailyValuePercentage>
  {
    if |columns| == 0 then []
    else
      var previous := DailyValueEntries(a, columns[..|columns| - 1]);
      var column := columns[|columns| - 1];
      if column.0 in a then previous + [DailyValueEntry(a, column)] else previous
  }

  /** Reading one more column extends the entries of the columns before it. */
  lemma DailyValueEntriesStep(a: Amounts, columns: seq<(Nutrient, string)>, k: nat)
    requires 0 < k <= |columns|
    ensures columns[k - 1].0 in a ==>
      DailyValueEntries(a, columns[..k]) == DailyValueEntries(a, columns[..k - 1]) + [DailyValueEntry(a, columns[k - 1])]
    ensures columns[k - 1].0 !in a ==>
      DailyValueEntries(a, columns[..k]) == DailyValueEntries(a, columns[..k - 1])
  {
    assert columns[..k][..k - 1] == columns[..k - 1];
  }

  /** When every listed type is in the reference table, every entry is a
      real response: named after a listed type, so none is filtered out. */
  lemma {:induction false} DailyValueEntriesNamed(a: Amounts, columns: seq<(Nutrient, string)>)
    requires forall c :: c in columns ==> c.1 in DailyValues && c.1 != ""
    ensures var e := DailyValueEntries(a, columns);
            && |e| <= |columns|
            && forall k :: 0 <= k < |e| ==> e[k].nutrientName in DailyValues && e[k].nutrientName != ""
    decreases |columns|
  {
    if |columns| > 0 {
      var prefix := columns[..|columns| - 1];
      assert forall c :: c in prefix ==> c in columns;
      DailyValueEntriesNamed(a, prefix);
    }
  }

  /** A listed column with a value and a known type has its entry. */
  lemma {:induction false} DailyValueEntryPresent(a: Amounts, columns: seq<(Nutrient, string)>, i: nat)
    requires i < |columns| && columns[i].0 in a && columns[i].1 in DailyValues
    ensures GetDailyValuePercentage(a[columns[i].0], columns[i].1).value in DailyValueEntries(a, columns)
    decreases |columns|
  {
    if i < |columns| - 1 {
      var prefix := columns[..|columns| - 1];
      assert prefix[i] == columns[i];
      DailyValueEntryPresent(a, prefix, i);
    }
  }

  /** Every entry of the nine reported columns is named after a type of
      the reference table, so the final name filter keeps them all. */
  lemma ServingEntriesNamed(a: Amounts)
    ensures var e := DailyValueEntries(a, DailyValueColumns);
            forall k :: 0 <= k < |e| ==> e[k].nutrientName in DailyValues && e[k].nutrientName != ""
  {
    DailyValueColumnsKnown();
    DailyValueEntriesNamed(a, DailyValueColumns);
  }

  /** `Where(dv => !string.IsNullOrEmpty(dv.NutrientName))`. */
  function WithName(list: seq<DailyValuePercentage>): (r: seq<DailyValuePercentage>)
    ensures forall k :: 0 <= k < |r| ==> r[k].nutrientName != ""
    ensures (forall k :: 0 <= k < |list| ==> list[k].nutrientName != "") ==> r == list
    decreases |list|
  {
    if |list| == 0 then []
    else
      var previous := WithName(list[..|list| - 1]);
      var last := list[|list| - 1];
      assert list == list[..|list| - 1] + [last];
      if last.nutrientName != "" then previous + [last] else previous
  }

  /** `GetServingDailyValuesAsync`: the daily-value entries of the serving's
      non-null protein, carbohydrate, fat, fiber, sodium, calcium, iron,
      vitamin C and vitamin A, in that order. The nine column tests are
      written as one loop over `DailyValueColumns`. */
  method GetServingDailyValues(serving: ServingNutrition) returns (r: seq<DailyValuePercentage>)
    ensures r == DailyValueEntries(serving.amounts, DailyValueColumns)
    ensures forall k :: 0 <= k < |r| ==> r[k].nutrientName in DailyValues
  {
    var a := serving.amounts;
    var dailyValues: seq<DailyValuePercentage> := [];
    var i := 0;
    while i < |DailyValueColumns|
      invariant 0 <= i <= |DailyValueColumns|
      invariant dailyValues == DailyValueEntries(a, DailyValueColumns[..i])
    {
      var column := DailyValueColumns[i];
      DailyValueEntriesStep(a, DailyValueColumns, i + 1);
      if column.0 in a {
        dailyValues := dailyValues + [DailyValueEntry(a, column)];
      }
      i := i + 1;
    }
    assert DailyValueColumns[..i] == DailyValueColumns;
    ServingEntriesNamed(a);
    r := WithName(dailyValues);
  }
}
