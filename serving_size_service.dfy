/** The serving-size service: a food's nutrition scaled to a serving
    (26 columns), the list of servings a food offers, the standard serving
    chosen from the category keywords and the fruit-size table. Unlike the
    calculation service it works on a loaded `Food` rather than a store,
    and it throws when the food has no nutrition facts. */
module ServingSizeService {
  import opened Nullable
  import opened FoodModel
  import opened Strings
  import NutritionCalculation

  // ---------------------------------------------------------------------------
  // Scaling to a serving
  // ---------------------------------------------------------------------------

  /** The 26 columns copied, scaled, into `NutritionPerServing`. */
  const ScaledFields: set<Nutrient> := {
    CaloriesKcal, ProteinG, FatG, CarbohydrateG, FiberG, SugarG, SodiumMg, PotassiumMg,
    CalciumMg, IronMg, MagnesiumMg, PhosphorusMg, ZincMg, VitaminAMcg, VitaminB6Mg,
    VitaminB12Mcg, VitaminCMg, VitaminDMcg, VitaminEMg, VitaminKMcg, FolateMcg,
    SaturatedFatG, MonounsaturatedFatG, PolyunsaturatedFatG, CholesterolMg, TransFatG}

  /** `ServingSizeCalculation`: the grams, the label, the scaled nutrient
      columns (every other column of the new `NutritionFacts` is null) and
      the multiplier from 100 g. */
  datatype ServingSizeCalculation = ServingSizeCalculation(
    servingGrams: real,
    servingDescription: Label,
    nutritionPerServing: Amounts,
    multiplierFrom100g: real)

  /** `GetServingDescription`: exactly 100 g is labelled "100g"; any other
      amount is labelled as the calculation service labels it. */
  function GetServingDescription(food: Food, grams: real): (r: Label)
    ensures grams == 100.0 ==> r == Text("100g")
    ensures grams != 100.0 ==> r == NutritionCalculation.ServingDescription(food, grams)
  {
    if grams == 100.0 then Text("100g")
    else if food.servingSizeGrams.Some? && NutritionCalculation.Abs(grams - food.servingSizeGrams.value) < 0.1 then
      if food.servingSizeDescription.Some? then Text(food.servingSizeDescription.value) else GramsText(grams)
    else
      GramsText(grams)
  }

  /** `CalculateNutritionPerServing`: an `ArgumentException` without
      nutrition facts; otherwise every present column among the 26 is the
      stored per-100 g value times grams/100 and every other column is null. */
  function CalculateNutritionPerServing(food: Food, servingGrams: real): (r: Result<ServingSizeCalculation>)
    ensures r.Err? <==> food.nutritionFacts.None?
    ensures r.Err? ==> r.fault == ArgumentFault
    ensures r.Ok? ==>
              var facts := food.nutritionFacts.value.amounts;
              && r.value.servingGrams == servingGrams
              && r.value.multiplierFrom100g == servingGrams / 100.0
              && r.value.servingDescription == GetServingDescription(food, servingGrams)
              && r.value.nutritionPerServing == NutritionCalculation.ScaleAmounts(facts, ScaledFields, r.value.multiplierFrom100g)
  {
    if food.nutritionFacts.None? then Err(ArgumentFault)
    else
      var multiplier := servingGrams / 100.0;
      Ok(ServingSizeCalculation(
        servingGrams,
        GetServingDescription(food, servingGrams),
        NutritionCalculation.ScaleAmounts(food.nutritionFacts.value.amounts, ScaledFields, multiplier),
        multiplier))
  }

  /** At 100 g the serving is the stored record itself, restricted to the
      26 columns, and is labelled "100g". */
  lemma HundredGramsIsStoredRecord(food: Food)
    requires food.nutritionFacts.Some?
    ensures var c := CalculateNutritionPerServing(food, 100.0).value;
            && c.servingDescription == Text("100g")
            && c.multiplierFrom100g == 1.0
            && c.nutritionPerServing == map n | n in food.nutritionFacts.value.amounts && n in ScaledFields ::
                                          food.nutritionFacts.value.amounts[n]
  {
  }

  /** Scaling is additive in grams, column by column. */
  lemma {:induction false} ServingAdditive(food: Food, g1: real, g2: real)
    requires food.nutritionFacts.Some?
    ensures var r1 := CalculateNutritionPerServing(food, g1).value.nutritionPerServing;
            var r2 := CalculateNutritionPerServing(food, g2).value.nutritionPerServing;
            var r := CalculateNutritionPerServing(food, g1 + g2).value.nutritionPerServing;
            && r.Keys == r1.Keys == r2.Keys
            && forall n :: n in r ==> r[n] == r1[n] + r2[n]
  {
    var facts := food.nutritionFacts.value.amounts;
    var r1 := CalculateNutritionPerServing(food, g1).value.nutritionPerServing;
    var r2 := CalculateNutritionPerServing(food, g2).value.nutritionPerServing;
    var r := CalculateNutritionPerServing(food, g1 + g2).value.nutritionPerServing;
    forall n | n in r
      ensures r[n] == r1[n] + r2[n]
    {
      calc {
        r[n];
        facts[n] * ((g1 + g2) / 100.0);
        { assert (g1 + g2) / 100.0 == g1 / 100.0 + g2 / 100.0; }
        facts[n] * (g1 / 100.0) + facts[n] * (g2 / 100.0);
        r1[n] + r2[n];
      }
    }
  }

  /** The two services scale shared columns identically, but each one
      reports columns the other drops: vitamin D only here, biotin only in
      the calculation service. */
  lemma {:induction false} ServicesScaleAlike(store: FoodStore, foodId: Guid, grams: real)
    requires NutritionCalculation.HasFacts(store, foodId)
    ensures var here := CalculateNutritionPerServing(store[foodId], grams).value.nutritionPerServing;
            var there := NutritionCalculation.CalculateNutritionForServing(store, foodId, grams).value.amounts;
            && (forall n :: n in here && n in there ==> here[n] == there[n])
            && VitaminDMcg in ScaledFields - NutritionCalculation.ServingFields
            && BiotinMcg in NutritionCalculation.ServingFields - ScaledFields
  {
    var food := store[foodId];
    var here := CalculateNutritionPerServing(food, grams).value.nutritionPerServing;
    var there := NutritionCalculation.CalculateNutritionForServing(store, foodId, grams).value.amounts;
    assert NutritionCalculation.FactsOf(store, foodId) == food.nutritionFacts.value.amounts;
    forall n | n in here && n in there
      ensures here[n] == there[n]
    {
    }
  }

  /** A food without nutrition facts: the calculation service reports
      nothing, this service throws `ArgumentException`. */
  lemma MissingFactsHandledDifferently(store: FoodStore, foodId: Guid, grams: real)
    requires foodId in store && store[foodId].isActive && store[foodId].nutritionFacts.None?
    ensures NutritionCalculation.CalculateNutritionForServing(store, foodId, grams).None?
    ensures CalculateNutritionPerServing(store[foodId], grams) == Err(ArgumentFault)
  {
  }

  /** Only this label helper special-cases 100 g: a food whose default
      serving is 100 g with its own description gets "100g" here and its
      description from the calculation service, while a 100 g request on a
      food without a default serving is labelled from grams there. */
  lemma LabelsDifferAtHundredGrams(food: Food)
    requires food.servingSizeGrams == Some(100.0) && food.servingSizeDescription == Some("1 bát")
    ensures GetServingDescription(food, 100.0) == Text("100g")
    ensures NutritionCalculation.ServingDescription(food, 100.0) == Text("1 bát")
    ensures NutritionCalculation.ServingDescription(food.(servingSizeGrams := None), 100.0) == GramsText(100.0)
  {
  }

  // ---------------------------------------------------------------------------
  // Available servings
  // ---------------------------------------------------------------------------

  /** The calculation for one serving of a food that has facts. */
  function Calculation(food: Food, grams: real): ServingSizeCalculation
    requires food.nutritionFacts.Some?
  {
    CalculateNutritionPerServing(food, grams).value
  }

  /** `GetAvailableServingSizes`: 100 g first, then the default serving when
      there is one, then each stored alternative in order, labelled with its
      own description. A `JsonException` leaves the alternatives out; any
      other exception from the deserializer, and the `ArgumentException` of a
      food without facts, propagate. */
  method GetAvailableServingSizes(food: Food, deserialize: string -> Deserialized)
    returns (r: Result<seq<ServingSizeCalculation>>)
    ensures food.nutritionFacts.None? ==> r == Err(ArgumentFault)
    ensures food.nutritionFacts.Some? ==>
              (r.Err? <==> !IsNullOrEmpty(food.alternativeServingSizes)
                           && deserialize(food.alternativeServingSizes.value) == OtherError)
    ensures food.nutritionFacts.Some? && r.Err? ==> r.fault == OtherFault
    ensures r.Ok? ==>
              var alternatives := NutritionCalculation.ParsedAlternatives(food, deserialize);
              var d := if food.servingSizeGrams.Some? then 1 else 0;
              && food.nutritionFacts.Some?
              && |r.value| == 1 + d + |alternatives|
              && r.value[0] == Calculation(food, 100.0)
              && r.value[0].servingDescription == Text("100g")
              && (food.servingSizeGrams.Some? ==> r.value[1] == Calculation(food, food.servingSizeGrams.value))
              && forall k :: 0 <= k < |alternatives| ==>
                   r.value[1 + d + k] == Calculation(food, alternatives[k].grams)
                                           .(servingDescription := Text(alternatives[k].description))
  {
    var base100g := CalculateNutritionPerServing(food, 100.0);
    if base100g.Err? {
      return Err(base100g.fault);
    }
    var servingSizes := [base100g.value];
    if food.servingSizeGrams.Some? {
      var defaultServing := CalculateNutritionPerServing(food, food.servingSizeGrams.value);
      servingSizes := servingSizes + [defaultServing.value];
    }
    var front := servingSizes;
    var d := |front|;
    if !IsNullOrEmpty(food.alternativeServingSizes) {
      var parsed := deserialize(food.alternativeServingSizes.value);
      if parsed.OtherError? {
        return Err(OtherFault);
      }
      if parsed.Parsed? {
        var alternativeServings := parsed.items;
        for i := 0 to |alternativeServings|
          invariant |servingSizes| == d + i
          invariant servingSizes[..d] == front
          invariant forall k :: 0 <= k < i ==>
                      servingSizes[d + k] == Calculation(food, alternativeServings[k].grams)
                                               .(servingDescription := Text(alternativeServings[k].description))
        {
          var serving := alternativeServings[i];
          var calculation := CalculateNutritionPerServing(food, serving.grams).value;
          calculation := calculation.(servingDescription := Text(serving.description));
          servingSizes := servingSizes + [calculation];
        }
      }
    }
    r := Ok(servingSizes);
  }

  // ---------------------------------------------------------------------------
  // Fruit sizes
  // ---------------------------------------------------------------------------

  /** The fruit table of `DeterminefruitServingSize`, in insertion order
      (the order a `Dictionary` that never had a removal enumerates). */
  const FruitSizes: seq<(string, real)> := [
    ("chuối", 120.0), ("cam", 150.0), ("táo", 180.0), ("xoài", 200.0), ("đu đủ", 250.0),
    ("dứa", 300.0), ("nho", 80.0), ("lê", 160.0), ("chôm chôm", 20.0), ("nhãn", 15.0),
    ("vải", 20.0), ("thanh long", 200.0)]

  /** The default fruit serving when no table key occurs in the name. */
  const DefaultFruitGrams: real := 150.0

  /** The value of the first table entry whose key occurs in `name`, or the
      default. */
  function FirstFruitSize(table: seq<(string, real)>, name: string): (r: real)
    ensures (exists i :: 0 <= i < |table| && Contains(name, table[i].0) && r == table[i].1
                         && forall j :: 0 <= j < i ==> !Contains(name, table[j].0))
            || ((forall j :: 0 <= j < |table| ==> !Contains(name, table[j].0)) && r == DefaultFruitGrams)
    decreases |table|
  {
    if |table| == 0 then DefaultFruitGrams
    else if Contains(name, table[0].0) then table[0].1
    else
      var rest := FirstFruitSize(table[1..], name);
      assert forall j :: 1 <= j < |table| ==> table[j] == table[1..][j - 1];
      rest
  }

  /** `DeterminefruitServingSize`: scans the table in order and returns the
      value of the first key contained in the name, else 150 g. */
  method DeterminefruitServingSize(foodName: string) returns (r: real)
    ensures r == FirstFruitSize(FruitSizes, foodName)
  {
    var i := 0;
    while i < |FruitSizes|
      invariant 0 <= i <= |FruitSizes|
      invariant FirstFruitSize(FruitSizes, foodName) == FirstFruitSize(FruitSizes[i..], foodName)
    {
      var fruit := FruitSizes[i];
      assert FruitSizes[i..][1..] == FruitSizes[i + 1..];
      if Contains(foodName, fruit.0) {
        return fruit.1;
      }
      i := i + 1;
    }
    return DefaultFruitGrams;
  }

  /** Every fruit serving lies between the smallest and the largest table
      entry (15 g and 300 g), the default included. */
  lemma {:induction false} FruitSizeBounds(table: seq<(string, real)>, name: string)
    requires forall i :: 0 <= i < |table| ==> 15.0 <= table[i].1 <= 300.0
    ensures 15.0 <= FirstFruitSize(table, name) <= 300.0
    decreases |table|
  {
    if |table| > 0 && !Contains(name, table[0].0) {
      FruitSizeBounds(table[1..], name);
    }
  }

  /** A name holding two keys gets the one listed first in the table:
      "cam và chuối" (orange and banana) is sized as a banana. */
  lemma FruitSizeTakesFirstTableEntry()
    ensures FirstFruitSize(FruitSizes, "cam và chuối") == 120.0
  {
    assert OccursAt("cam và chuối", "chuối", 7);
    ContainsAt("cam và chuối", "chuối");
  }

  /** An empty food name contains no key of a
      table without empty keys and gets the 150 g default. */
  lemma {:induction false} EmptyNameGetsDefault(table: seq<(string, real)>)
    requires forall i :: 0 <= i < |table| ==> table[i].0 != ""
    ensures FirstFruitSize(table, "") == DefaultFruitGrams
    decreases |table|
  {
    if |table| > 0 {
      assert !Contains("", table[0].0);
      EmptyNameGetsDefault(table[1..]);
    }
  }

  // ---------------------------------------------------------------------------
  // Standard serving
  // ---------------------------------------------------------------------------

  /** The `ServingSize` entity. */
  datatype ServingSize = ServingSize(
    grams: real,
    description: string,
    descriptionEn: string,
    category: Option<string>,
    isDefault: bool)

  /** How a category rule sets the grams: a fixed amount, or the fruit table
      applied to the food name. */
  datatype GramsRule = FixedGrams(g: real) | FruitTable

  /** One branch of the keyword chain: its two keywords, grams and labels. */
  datatype CategoryRule = CategoryRule(keywords: seq<string>, grams: GramsRule, description: string, descriptionEn: string)

  /** The keyword chain of `GetStandardServingSize`, in the order it is tried. */
  const CategoryRules: seq<CategoryRule> := [
    CategoryRule(["cơm", "rice"], FixedGrams(150.0), "1 bát", "1 bowl"),
    CategoryRule(["phở", "noodle"], FixedGrams(350.0), "1 tô", "1 bowl"),
    CategoryRule(["fruit", "trái cây"], FruitTable, "1 quả", "1 piece"),
    CategoryRule(["vegetable", "rau"], FixedGrams(100.0), "1 dĩa", "1 plate"),
    CategoryRule(["beverage", "đồ uống"], FixedGrams(250.0), "1 ly", "1 glass")]

  predicate RuleMatches(rule: CategoryRule, categoryName: string)
  {
    exists k :: 0 <= k < |rule.keywords| && Contains(categoryName, rule.keywords[k])
  }

  /** The index of the first rule one of whose keywords occurs in the name. */
  function FirstMatchingRule(rules: seq<CategoryRule>, categoryName: string): (r: Option<nat>)
    ensures r.Some? ==> r.value < |rules| && RuleMatches(rules[r.value], categoryName)
                        && forall j :: 0 <= j < r.value ==> !RuleMatches(rules[j], categoryName)
    ensures r.None? ==> forall j :: 0 <= j < |rules| ==> !RuleMatches(rules[j], categoryName)
    decreases |rules|
  {
    if |rules| == 0 then None
    else if RuleMatches(rules[0], categoryName) then Some(0)
    else
      var rest := FirstMatchingRule(rules[1..], categoryName);
      assert forall j :: 1 <= j < |rules| ==> rules[j] == rules[1..][j - 1];
      if rest.Some? then Some(rest.value + 1) else None
  }

  /** `food.Category?.Name?.ToLower() ?? ""`. */
  function CategoryName(food: Food): string
  {
    if food.category.Some? && food.category.value.name.Some? then Lower(food.category.value.name.value) else ""
  }

  /** The standard serving by the rule table: the food's own serving (or
      100 g, "100g") unless the first matching category rule overrides it;
      always the default serving and without a size category. */
  function StandardServing(food: Food): (r: ServingSize)
    ensures r.isDefault && r.category.None?
    ensures FirstMatchingRule(CategoryRules, CategoryName(food)).None? ==>
              && r.grams == food.servingSizeGrams.OrElse(100.0)
              && r.description == food.servingSizeDescription.OrElse("100g")
              && r.descriptionEn == food.servingSizeDescriptionEn.OrElse("100g")
    ensures FirstMatchingRule(CategoryRules, CategoryName(food)).Some? ==>
              var rule := CategoryRules[FirstMatchingRule(CategoryRules, CategoryName(food)).value];
              && r.description == rule.description
              && r.descriptionEn == rule.descriptionEn
              && (rule.grams.FixedGrams? ==> r.grams == rule.grams.g)
              && (rule.grams.FruitTable? ==> r.grams == FirstFruitSize(FruitSizes, Lower(food.name)))
  {
    var base := ServingSize(food.servingSizeGrams.OrElse(100.0), food.servingSizeDescription.OrElse("100g"),
                            food.servingSizeDescriptionEn.OrElse("100g"), None, true);
    match FirstMatchingRule(CategoryRules, CategoryName(food))
    case None => base
    case Some(i) =>
      var rule := CategoryRules[i];
      var grams := match rule.grams
        case FixedGrams(g) => g
        case FruitTable => FirstFruitSize(FruitSizes, Lower(food.name));
      base.(grams := grams, description := rule.description, descriptionEn := rule.descriptionEn)
  }

  /** `GetStandardServingSize`: starts from the food's own serving and lets
      the keyword chain overwrite its fields. */
  method GetStandardServingSize(food: Food) returns (servingSize: ServingSize)
    ensures servingSize == StandardServing(food)
  {
    var categoryName := CategoryName(food);
    var foodName := Lower(food.name);
    servingSize := ServingSize(food.servingSizeGrams.OrElse(100.0), food.servingSizeDescription.OrElse("100g"),
                               food.servingSizeDescriptionEn.OrElse("100g"), None, true);
    FirstMatchingCategoryRule(categoryName);
    if Contains(categoryName, "cơm") || Contains(categoryName, "rice") {
      servingSize := servingSize.(grams := 150.0, description := "1 bát", descriptionEn := "1 bowl");
    } else if Contains(categoryName, "phở") || Contains(categoryName, "noodle") {
      servingSize := servingSize.(grams := 350.0, description := "1 tô", descriptionEn := "1 bowl");
    } else if Contains(categoryName, "fruit") || Contains(categoryName, "trái cây") {
      var grams := DeterminefruitServingSize(foodName);
      servingSize := servingSize.(grams := grams, description := "1 quả", descriptionEn := "1 piece");
    } else if Contains(categoryName, "vegetable") || Contains(categoryName, "rau") {
      servingSize := servingSize.(grams := 100.0, description := "1 dĩa", descriptionEn := "1 plate");
    } else if Contains(categoryName, "beverage") || Contains(categoryName, "đồ uống") {
      servingSize := servingSize.(grams := 250.0, description := "1 ly", descriptionEn := "1 glass");
    }
  }

  /** A rule matches exactly when one of its two keywords occurs in the
      name. */
  lemma RuleMatchesByKeyword(rule: CategoryRule, categoryName: string)
    requires |rule.keywords| == 2
    ensures RuleMatches(rule, categoryName) <==>
              Contains(categoryName, rule.keywords[0]) || Contains(categoryName, rule.keywords[1])
  {
  }

  /** The first matching rule, spelled out for the five rules of the table. */
  lemma FirstMatchingCategoryRule(categoryName: string)
    ensures var m := FirstMatchingRule(CategoryRules, categoryName);
            if Contains(categoryName, "cơm") || Contains(categoryName, "rice") then m == Some(0)
            else if Contains(categoryName, "phở") || Contains(categoryName, "noodle") then m == Some(1)
            else if Contains(categoryName, "fruit") || Contains(categoryName, "trái cây") then m == Some(2)
            else if Contains(categoryName, "vegetable") || Contains(categoryName, "rau") then m == Some(3)
            else if Contains(categoryName, "beverage") || Contains(categoryName, "đồ uống") then m == Some(4)
            else m.None?
  {
    RuleMatchesByKeyword(CategoryRules[0], categoryName);
    RuleMatchesByKeyword(CategoryRules[1], categoryName);
    RuleMatchesByKeyword(CategoryRules[2], categoryName);
    RuleMatchesByKeyword(CategoryRules[3], categoryName);
    RuleMatchesByKeyword(CategoryRules[4], categoryName);
  }

  /** The rice branch is tried first: a category mentioning rice gets
      150 g in a bowl even when it also mentions noodles. */
  lemma RiceComesFirst(food: Food)
    requires Contains(CategoryName(food), "rice")
    ensures StandardServing(food).grams == 150.0
    ensures StandardServing(food).description == "1 bát"
  {
    assert CategoryRules[0].keywords[1] == "rice";
    assert RuleMatches(CategoryRules[0], CategoryName(food));
  }
}
