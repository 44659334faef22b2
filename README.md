# FoodService core, modelled in Dafny

This project models the computational core of the FoodService of the
FitnessTracking backend, a .NET service that stores Vietnamese and
international foods with their per-100 g nutrition facts. The model covers
these parts:

- **Nutrition calculation service** (`NutritionCalculation`). It scales a
  food's per-100 g facts to a serving, computes daily-value percentages with
  their band (low, medium, high, very high) and health recommendation, and
  picks the recommended serving for a user profile. It also covers:
  - recipe totals;
  - the comparison of several foods, with its summary and insights;
  - the nutrient-density score (0 to 100);
  - the list of alternative servings;
  - the daily values of a serving.
- **Serving-size service** (`ServingSizeService`). It covers the nutrition
  of one serving, the list of available servings and the standard serving
  chosen from keywords in the category name. For fruit, the serving is
  chosen from keywords in the food name.
- **Vietnamese serving table** (`VietnameseServings`). These are the common
  portions of the `ServingSize` entity.
- **AutoMapper profiles**:
  - category to DTO, with food counts (`CategoryMapping`);
  - nutrition facts to DTO, with the column renames, the data-quality label
    and the confidence score (`NutritionMapping`);
  - food to list and details DTOs, plus create and update (`FoodMapping`).

  An update that skips null members is modelled as a pure function from the
  old entity and the DTO to the new entity.
- **Mapping extensions** (`MappingExtensions`, `CategoryTree`):
  - the alternative-servings JSON reader and writer, which swallow
    exceptions;
  - `ToFoodEntity`, which forces the defaults of a new food;
  - the category tree builder. It fills each `CategoryDto`'s `Children` in
    place, so it is modelled as a class with methods.
- **Response envelopes** (`ApiResponses`, `PaginationRequests`): `ApiResponse<T>`
  and its factories, `PaginatedResponse<T>` with its page properties, the
  search response's "more results" flag and the pagination request's
  `Skip`.

The model represents the source's types as follows:

- Every decimal is a `real`.
- A nullable value is an `Option`.
- A food's nutrition columns form a map from `Nutrient` to `real`; a
  missing key is a null column.
- The database is a `FoodStore` map from id to food.
- The JSON serializer and deserializer are function parameters whose
  outcomes include the exceptions they can throw.
- C# `int` arithmetic is modelled explicitly by `Int32`, including
  wrap-around on overflow.

## Model

| member | source | states |
|---|---|---|
| NutritionCalculation.DailyValuesPositive | backend/src/FoodService/Services/Implementations/NutritionCalculationService.cs:26-64 | every daily reference amount is positive, so a percentage is always defined |
| FoodModel.FindActive | backend/src/FoodService/Services/Implementations/NutritionCalculationService.cs:71-73 | a food is found exactly when its id is stored and the food is active |
| NutritionCalculation.CalculateNutritionForServing | backend/src/FoodService/Services/Implementations/NutritionCalculationService.cs:69-116 | a result exists iff the active food has facts; each present column is the per-100 g value times grams/100, and absent columns stay absent |
| NutritionCalculation.ScaleIdentity | backend/src/FoodService/Services/Implementations/NutritionCalculationService.cs:79-114 | a 100 g serving reproduces the stored per-100 g columns |
| NutritionCalculation.ScaleAdditive | backend/src/FoodService/Services/Implementations/NutritionCalculationService.cs:79-114 | the serving of g1 + g2 grams is the sum of the two servings, column by column |
| NutritionCalculation.ScaleRiceExample | backend/src/FoodService/Services/Implementations/NutritionCalculationService.cs:79-114 | 130 kcal per 100 g gives 195 kcal for 150 g |
| NutritionCalculation.ServingDescription | backend/src/FoodService/Services/Implementations/NutritionCalculationService.cs:395-401 | the label is the food's own description iff the food has a serving size within 0.1 g of the grams and a description; otherwise it is "{g}g" |
| NutritionCalculation.RoundHalfEven | backend/src/FoodService/Services/Implementations/NutritionCalculationService.cs:139 | the result is within 0.5 of the input and is even on a tie (the default of `Math.Round`) |
| NutritionCalculation.RoundHalfEvenMonotone | backend/src/FoodService/Services/Implementations/NutritionCalculationService.cs:139 | rounding preserves order |
| NutritionCalculation.RoundOneDecimal | backend/src/FoodService/Services/Implementations/NutritionCalculationService.cs:139 | the shown percentage is within 0.05 of the exact one |
| NutritionCalculation.RoundOneDecimalMonotone | backend/src/FoodService/Services/Implementations/NutritionCalculationService.cs:139 | rounding to one decimal preserves order |
| NutritionCalculation.NutrientCategory | backend/src/FoodService/Services/Implementations/NutritionCalculationService.cs:403-412 | each band holds exactly its interval: below 5, [5, 15), [15, 25), 25 and above |
| NutritionCalculation.NutrientCategoryMonotone | backend/src/FoodService/Services/Implementations/NutritionCalculationService.cs:403-412 | a larger percentage never falls in a lower band |
| NutritionCalculation.HealthRecommendationExactly | backend/src/FoodService/Services/Implementations/NutritionCalculationService.cs:444-472 | a recommendation is given exactly when the nutrient has a threshold (15 for saturated fat, 20 for the six others) and the percentage is strictly above it; the Vietnamese text is given exactly when the English one is. The texts themselves are `HealthRecommendation` and `HealthRecommendationVi`, the two recommendation tables of lines 444-472 |
| NutritionCalculation.NutrientInfo | backend/src/FoodService/Services/Implementations/NutritionCalculationService.cs:414-442 | an unlisted nutrient gets no unit and its own type as its name |
| NutritionCalculation.GetDailyValuePercentage | backend/src/FoodService/Services/Implementations/NutritionCalculationService.cs:121-145 | a result exists iff the type has a daily value; it holds the type, the value, the unit and Vietnamese name of the nutrient table, the reference amount, the percentage rounded to within 0.05, the band of the unrounded percentage, and the English and Vietnamese recommendations for the unrounded percentage (present iff above the type's threshold) |
| NutritionCalculation.DailyValueMonotone | backend/src/FoodService/Services/Implementations/NutritionCalculationService.cs:121-145 | more of a nutrient never shows a smaller percentage or a lower band |
| NutritionCalculation.DailyValueShown | backend/src/FoodService/Services/Implementations/NutritionCalculationService.cs:121-145 | the shown percentage is the exact value/daily-value*100 rounded to one decimal |
| NutritionCalculation.DailyValueSodiumExample | backend/src/FoodService/Services/Implementations/NutritionCalculationService.cs:121-145 | 2760 mg sodium is 120 %, very high, with the high-sodium warning |
| NutritionCalculation.BandUsesUnroundedPercentage | backend/src/FoodService/Services/Implementations/NutritionCalculationService.cs:130-139 | 2.48 g protein shows 5 % but is banded low, because the band uses the unrounded value |
| NutritionCalculation.CalculateRecommendedServingSize | backend/src/FoodService/Services/Implementations/NutritionCalculationService.cs:474-488 | the food's serving size (100 g when absent) times the factor of the lower-cased profile: 0.8 for weight_loss, 1.2 for muscle_gain, 1.5 for athlete, 0.9 for elderly, otherwise 1 |
| NutritionCalculation.GetRecommendedServingSize | backend/src/FoodService/Services/Implementations/NutritionCalculationService.cs:150-162 | a result exists iff the food has facts; it is for the food's default serving (100 g when none) times the profile factor, with multiplier grams/100, the matching label and every stored column scaled by the multiplier |
| NutritionCalculation.RecommendedServingIgnoresCategory | backend/src/FoodService/Services/Implementations/NutritionCalculationService.cs:150-162 | the food's category, though loaded, does not change the recommendation |
| NutritionCalculation.AddColumns | backend/src/FoodService/Services/Implementations/NutritionCalculationService.cs:182-206 | each running total grows by the ingredient's column, a null column counting as 0 |
| NutritionCalculation.RecipeTotalsKeys | backend/src/FoodService/Services/Implementations/NutritionCalculationService.cs:182-206 | accumulation never adds or removes a column |
| NutritionCalculation.CalculateRecipeNutritionAsWritten | backend/src/FoodService/Services/Implementations/NutritionCalculationService.cs:167-216 | as written, every total starts null and so stays null; the weight, multiplier and labels are still set |
| NutritionCalculation.NullStartedTotals | backend/src/FoodService/Services/Implementations/NutritionCalculationService.cs:182-206 | totals that start with no columns end with none, whatever the ingredients |
| NutritionCalculation.ZeroStartedTotals | backend/src/FoodService/Services/Implementations/NutritionCalculationService.cs:182-206 | totals that start at zero end as the column-wise sum of the ingredients' servings |
| NutritionCalculation.ZeroStartedSingleIngredient | backend/src/FoodService/Services/Implementations/NutritionCalculationService.cs:182-206 | 100 g of a 130 kcal food gives a recipe total of 130 kcal once the totals start at zero |
| NutritionCalculation.ShareOfServing | backend/src/FoodService/Services/Implementations/NutritionCalculationService.cs:182-200 | an ingredient's share of a column is that column of its serving, or 0 |
| NutritionCalculation.ColumnSumAppend | backend/src/FoodService/Services/Implementations/NutritionCalculationService.cs:182-206 | the total of two ingredient lists is the sum of their totals |
| NutritionCalculation.CalculateRecipeNutrition | backend/src/FoodService/Services/Implementations/NutritionCalculationService.cs:167-216 | the recipe totals hold every serving column, and each is the sum over the ingredients; the weight is the sum of the quantities |
| NutritionCalculation.ComparisonItemFor | backend/src/FoodService/Services/Implementations/NutritionCalculationService.cs:227-258 | a food appears in a comparison iff it has facts, with its id, English and Vietnamese names, its default serving (100 g when unset), the label of its description or "{g}g" when it has none, and that serving's compared columns |
| NutritionCalculation.RestrictScaled | backend/src/FoodService/Services/Implementations/NutritionCalculationService.cs:235-256 | taking the compared columns of a scaled serving equals scaling only those columns |
| NutritionCalculation.ComparisonItemsExactly | backend/src/FoodService/Services/Implementations/NutritionCalculationService.cs:225-259 | the compared foods are exactly the requested ones with facts, each with its own item, never more than the ids |
| NutritionCalculation.ComparisonItemsConcat | backend/src/FoodService/Services/Implementations/NutritionCalculationService.cs:225-259 | items keep request order: the items of two id lists in sequence are the items of the first followed by those of the second |
| NutritionCalculation.FirstMaxIndex | backend/src/FoodService/Services/Implementations/NutritionCalculationService.cs:498-500 | the index of the first largest value, as `OrderByDescending(...).First()` picks it |
| NutritionCalculation.FirstMinIndex | backend/src/FoodService/Services/Implementations/NutritionCalculationService.cs:499-501 | the index of the first smallest value |
| NutritionCalculation.MeanBetween | backend/src/FoodService/Services/Implementations/NutritionCalculationService.cs:498-510 | the average lies between the minimum and the maximum |
| NutritionCalculation.PassingPositions | backend/src/FoodService/Services/Implementations/NutritionCalculationService.cs:525-526 | the positions of the foods whose column (0 when null) passes the comparison: strictly increasing, each passing, every passing position present |
| NutritionCalculation.NamesWhere | backend/src/FoodService/Services/Implementations/NutritionCalculationService.cs:530-541 | the names are those of the passing foods, position by position in list order |
| NutritionCalculation.IncreasingPositionsBound | backend/src/FoodService/Services/Implementations/NutritionCalculationService.cs:525-526 | a strictly increasing list of positions is no longer than the list, and shorter when it misses one |
| NutritionCalculation.PassingPositionsCount | backend/src/FoodService/Services/Implementations/NutritionCalculationService.cs:525-526 | some food passes iff some position does; a food that fails makes the positions fewer than the foods |
| NutritionCalculation.NamesAbove | backend/src/FoodService/Services/Implementations/NutritionCalculationService.cs:525-538 | the names are exactly those of the foods above the bound, in list order; non-empty iff some food is above it, and missing any food at or below it |
| NutritionCalculation.NamesBelow | backend/src/FoodService/Services/Implementations/NutritionCalculationService.cs:526 | the names are exactly those of the foods below the bound, in list order; non-empty iff some food is below it, and missing any food at or above it |
| NutritionCalculation.GenerateInsights | backend/src/FoodService/Services/Implementations/NutritionCalculationService.cs:518-546 | fewer than two foods give no insights; there are at most three, and each names at least one food |
| NutritionCalculation.InsightList | backend/src/FoodService/Services/Implementations/NutritionCalculationService.cs:528-542 | one insight per non-empty list: high calories first iff its list is non-empty, low calories next iff its list is non-empty, protein last iff its list is non-empty |
| NutritionCalculation.HighCalorieInsightExactly | backend/src/FoodService/Services/Implementations/NutritionCalculationService.cs:518-531 | with two or more foods, the high-calorie insight opens the list iff some food has more than 1.5 times the average calories, and names exactly those foods |
| NutritionCalculation.LowCalorieInsightExactly | backend/src/FoodService/Services/Implementations/NutritionCalculationService.cs:518-536 | with two or more foods, the low-calorie insight comes right after the high-calorie one (or first) iff some food has less than half the average calories, and names exactly those foods |
| NutritionCalculation.GoodProteinInsightExactly | backend/src/FoodService/Services/Implementations/NutritionCalculationService.cs:518-546 | with two or more foods, a protein insight appears iff some food has more than 10 g protein; it names exactly those foods and comes last |
| NutritionCalculation.HighCalorieInsightNeverAll | backend/src/FoodService/Services/Implementations/NutritionCalculationService.cs:524-531 | with non-negative calories, the foods above 1.5 times the average never include every food |
| NutritionCalculation.GenerateComparisonSummary | backend/src/FoodService/Services/Implementations/NutritionCalculationService.cs:490-516 | an empty list gives the empty summary; a non-empty one names the first food of largest calories, of largest protein, of smallest calories and of smallest fat (null counting as 0), the two averages and the insights |
| NutritionCalculation.SummaryAverageBetweenExtremes | backend/src/FoodService/Services/Implementations/NutritionCalculationService.cs:490-516 | the named lowest and highest calorie foods are the first minimum and first maximum, and the average calories lie between their calories |
| NutritionCalculation.GetNutritionComparison | backend/src/FoodService/Services/Implementations/NutritionCalculationService.cs:221-265 | the comparison lists the requested foods with facts and summarises exactly that list |
| NutritionCalculation.Clamp | backend/src/FoodService/Services/Implementations/NutritionCalculationService.cs:329 | the score is cut to [0, 100] and unchanged inside it |
| NutritionCalculation.DensityScore | backend/src/FoodService/Services/Implementations/NutritionCalculationService.cs:308-330 | the score lies in [0, 100] and is 0 when the calories are missing or not positive |
| NutritionCalculation.CalculateNutritionDensityScore | backend/src/FoodService/Services/Implementations/NutritionCalculationService.cs:308-330 | the loop's score equals the density score of the 100 g serving, and lies in [0, 100] |
| NutritionCalculation.RawDensityScore | backend/src/FoodService/Services/Implementations/NutritionCalculationService.cs:316-327 | the step-by-step sum equals the per-calorie weighted score |
| NutritionCalculation.PerCalorieScoreIsWeightedSum | backend/src/FoodService/Services/Implementations/NutritionCalculationService.cs:316-327 | adding each weighted nutrient over the calories equals the weighted sum over the calories |
| NutritionCalculation.DensityMonotone | backend/src/FoodService/Services/Implementations/NutritionCalculationService.cs:316-329 | more of a beneficial nutrient never lowers the score, and more sodium or saturated fat never raises it |
| NutritionCalculation.ParsedAlternatives | backend/src/FoodService/Services/Implementations/NutritionCalculationService.cs:366-380 | a null or empty column yields no alternatives |
| NutritionCalculation.GetAlternativeServingSizes | backend/src/FoodService/Services/Implementations/NutritionCalculationService.cs:335-391 | an empty list for a missing food or one without facts; otherwise the 100 g serving, the default serving when set and one serving per parsed alternative; a JSON error drops the alternatives, and the call fails exactly when the deserializer fails otherwise |
| NutritionCalculation.DailyValueColumnsKnown | backend/src/FoodService/Services/Implementations/NutritionCalculationService.cs:270-303 | every column the daily-value list reads has a daily value and a name |
| NutritionCalculation.DailyValueEntriesNamed | backend/src/FoodService/Services/Implementations/NutritionCalculationService.cs:270-303 | every entry is named after one of the listed columns |
| NutritionCalculation.DailyValueEntryPresent | backend/src/FoodService/Services/Implementations/NutritionCalculationService.cs:270-303 | every present column contributes its daily-value entry |
| NutritionCalculation.WithName | backend/src/FoodService/Services/Implementations/NutritionCalculationService.cs:302 | the filter keeps only named entries and keeps a fully named list unchanged |
| NutritionCalculation.GetServingDailyValues | backend/src/FoodService/Services/Implementations/NutritionCalculationService.cs:270-303 | the result is the entries of the present columns, in column order, each with a known nutrient name |
| ServingSizeService.GetServingDescription | backend/src/FoodService/Services/ServingSizeService.cs:140-149 | 100 g is always labelled "100g"; any other amount is labelled as the nutrition service labels it |
| ServingSizeService.CalculateNutritionPerServing | backend/src/FoodService/Services/ServingSizeService.cs:8-52 | fails with an argument error iff the food has no facts; otherwise every column is scaled by grams/100 |
| ServingSizeService.HundredGramsIsStoredRecord | backend/src/FoodService/Services/ServingSizeService.cs:8-52 | the 100 g calculation is the stored record, labelled "100g" |
| ServingSizeService.ServingAdditive | backend/src/FoodService/Services/ServingSizeService.cs:13-43 | servings add up column by column |
| ServingSizeService.ServicesScaleAlike | backend/src/FoodService/Services/ServingSizeService.cs:13-43 | both services scale an active food's columns identically |
| ServingSizeService.MissingFactsHandledDifferently | backend/src/FoodService/Services/ServingSizeService.cs:10-11 | without facts one service answers null and the other throws |
| ServingSizeService.LabelsDifferAtHundredGrams | backend/src/FoodService/Services/ServingSizeService.cs:140-149 | at 100 g this service says "100g" where the nutrition service uses the food's own description |
| ServingSizeService.GetAvailableServingSizes | backend/src/FoodService/Services/ServingSizeService.cs:54-89 | throws an argument error without facts; otherwise the 100 g entry labelled "100g", the default serving when set, then each parsed alternative with its own label; a JSON error drops the alternatives, and any other deserializer failure fails the call |
| ServingSizeService.FirstFruitSize | backend/src/FoodService/Services/ServingSizeService.cs:169-175 | the size of the first table entry whose name occurs in the food name, or 150 g when none does |
| ServingSizeService.DeterminefruitServingSize | backend/src/FoodService/Services/ServingSizeService.cs:151-176 | the loop returns the first matching fruit's size, or the default |
| ServingSizeService.FruitSizeBounds | backend/src/FoodService/Services/ServingSizeService.cs:153-175 | every fruit size lies between 15 g and 300 g |
| ServingSizeService.FruitSizeTakesFirstTableEntry | backend/src/FoodService/Services/ServingSizeService.cs:169-173 | a name containing both "cam" and "chuối" gets 120 g, the earlier entry |
| ServingSizeService.EmptyNameGetsDefault | backend/src/FoodService/Services/ServingSizeService.cs:169-175 | an empty food name gets the 150 g default |
| ServingSizeService.FirstMatchingRule | backend/src/FoodService/Services/ServingSizeService.cs:106-135 | the first category rule whose keyword occurs in the name, or none when none matches |
| ServingSizeService.StandardServing | backend/src/FoodService/Services/ServingSizeService.cs:91-138 | a default serving: the food's own serving size and descriptions (100 g, "100g" when absent) unless a category rule matches, which fixes grams and descriptions |
| ServingSizeService.GetStandardServingSize | backend/src/FoodService/Services/ServingSizeService.cs:91-138 | the method builds exactly the standard serving |
| ServingSizeService.RuleMatchesByKeyword | backend/src/FoodService/Services/ServingSizeService.cs:106-130 | a rule applies iff one of its two keywords occurs in the lower-cased category name |
| ServingSizeService.FirstMatchingCategoryRule | backend/src/FoodService/Services/ServingSizeService.cs:106-135 | the rules are tried in source order: rice, noodle, fruit, vegetable, beverage |
| ServingSizeService.RiceComesFirst | backend/src/FoodService/Services/ServingSizeService.cs:106-111 | a category naming rice gives one 150 g bowl, whatever else it names |
| VietnameseServings.GetServingSize | backend/src/FoodService/Entities/ServingSize.cs:65-68 | a listed portion gets its table weight, and any other key gets 100 g |
| VietnameseServings.CommonServingsBounds | backend/src/FoodService/Entities/ServingSize.cs:32-63 | every table portion lies between 5 g and 350 g |
| VietnameseServings.ServingSizeRange | backend/src/FoodService/Entities/ServingSize.cs:32-68 | every answer lies between 5 g and 350 g, and both ends are reached |
| VietnameseServings.ServingSizeIgnoresFoodType | backend/src/FoodService/Entities/ServingSize.cs:65-68 | the food type argument has no effect |
| CategoryMapping.ToCategoryData | backend/src/FoodService/Mapping/CategoryMappingProfile.cs:12-17 | the scalar members are copied; the food count is the category's own foods; the total adds the direct children's foods |
| CategoryMapping.TotalFoodCountBounds | backend/src/FoodService/Mapping/CategoryMappingProfile.cs:15-17 | the total is at least the own count, and equal iff no direct child has foods |
| CategoryMapping.NoChildFoods | backend/src/FoodService/Mapping/CategoryMappingProfile.cs:16-17 | the children's sum is 0 iff every child has no foods |
| CategoryMapping.GrandchildrenNotCounted | backend/src/FoodService/Mapping/CategoryMappingProfile.cs:16-17 | replacing a child's own children does not change the total |
| CategoryMapping.TwoFoodsNoChildren | backend/src/FoodService/Tests/Mapping/MappingProfileTests.cs:153-154 | two foods and no children give a count and total of 2 |
| CategoryMapping.ToCategoryListDto | backend/src/FoodService/Mapping/CategoryMappingProfile.cs:19-23 | the list entry is named by `NameVi` and counts the category's own foods |
| CategoryMapping.ListAgreesWithFull | backend/src/FoodService/Mapping/CategoryMappingProfile.cs:12-23 | the list and full DTOs agree on the count; the list's name is the full DTO's Vietnamese name |
| CategoryMapping.CreateCategory | backend/src/FoodService/Mapping/CategoryMappingProfile.cs:26-32 | a new category gets the id and clock, no foods and no children; the given members are copied |
| CategoryMapping.CreatedCategoryReadsBack | backend/src/FoodService/Mapping/CategoryMappingProfile.cs:12-32 | a created category maps back to its DTO's members with counts 0 |
| CategoryMapping.UpdateCategory | backend/src/FoodService/Mapping/CategoryMappingProfile.cs:34-41 | null members keep the current value, given ones replace it; id, creation time, foods and children are kept; the update time is now |
| CategoryMapping.EmptyUpdateOnlyTouchesTimestamp | backend/src/FoodService/Mapping/CategoryMappingProfile.cs:34-41 | an all-null update only moves the update time |
| CategoryMapping.UpdateIdempotent | backend/src/FoodService/Mapping/CategoryMappingProfile.cs:34-41 | applying the same update twice equals applying it once |
| CategoryMapping.UpdateNeverDetachesParent | backend/src/FoodService/Mapping/CategoryMappingProfile.cs:34-41 | an update cannot move a category with a parent to the root |
| CategoryTree.CategoryDto.constructor | backend/src/FoodService/Extensions/MappingExtensions.cs:111 | a mapped category starts with no children |
| CategoryTree.ChildrenOf | backend/src/FoodService/Extensions/MappingExtensions.cs:125 | the children are exactly the categories naming the id as their parent |
| CategoryTree.Roots | backend/src/FoodService/Extensions/MappingExtensions.cs:114 | the roots are exactly the categories without a parent |
| CategoryTree.MapCategories | backend/src/FoodService/Extensions/MappingExtensions.cs:111 | one fresh object per category, in order, with the profile's data |
| CategoryTree.BuildCategoryHierarchy | backend/src/FoodService/Extensions/MappingExtensions.cs:123-130 | every category below the parent gets its children list; every other category is untouched |
| CategoryTree.ToHierarchicalCategoryDto | backend/src/FoodService/Extensions/MappingExtensions.cs:107-121 | returns the roots; every category reachable from a root holds its children, and every other category has none |
| CategoryTree.MappedIdsUnique | backend/src/FoodService/Extensions/MappingExtensions.cs:111 | distinct category ids give distinct objects |
| CategoryTree.ReachableWithinFuel | backend/src/FoodService/Extensions/MappingExtensions.cs:114-129 | a category is reachable iff it lies below some root within the bound the recursion uses |
| CategoryTree.RootReached | backend/src/FoodService/Extensions/MappingExtensions.cs:114-118 | every root is reached |
| CategoryTree.ChildReached | backend/src/FoodService/Extensions/MappingExtensions.cs:125-129 | the child of a reached category is reached |
| CategoryTree.UnrootedGroupNotReached | backend/src/FoodService/Extensions/MappingExtensions.cs:114-129 | a group closed under parents and holding no root is never reached |
| CategoryTree.OrphanNotReached | backend/src/FoodService/Extensions/MappingExtensions.cs:114-129 | a category whose parent id matches no category is never reached |
| CategoryTree.TwoCycleNotReached | backend/src/FoodService/Extensions/MappingExtensions.cs:114-129 | two categories naming each other as parent are never reached, so the recursion never enters the cycle |
| NutritionMapping.EntityColumn | backend/src/FoodService/Mapping/NutritionMappingProfile.cs:12-16 | a DTO member never maps to a trace column |
| NutritionMapping.DtoColumn | backend/src/FoodService/Mapping/NutritionMappingProfile.cs:12-16 | a column has a DTO member iff it is not a trace column, and renaming back gives the column |
| NutritionMapping.RenameRoundTrip | backend/src/FoodService/Mapping/NutritionMappingProfile.cs:12-43 | the rename of a DTO member and back gives the member |
| NutritionMapping.ToDtoAmounts | backend/src/FoodService/Mapping/NutritionMappingProfile.cs:12-16 | the DTO holds exactly the renamed present columns |
| NutritionMapping.ToEntityAmounts | backend/src/FoodService/Mapping/NutritionMappingProfile.cs:24-43 | every DTO member lands in its column, and no other column is filled |
| NutritionMapping.EntityColumnInjective | backend/src/FoodService/Mapping/NutritionMappingProfile.cs:12-43 | no two DTO members share a column |
| NutritionMapping.DtoEntityDtoRoundTrip | backend/src/FoodService/Mapping/NutritionMappingProfile.cs:12-43 | a DTO's amounts survive the trip to the entity and back |
| NutritionMapping.EntityDtoEntityRoundTrip | backend/src/FoodService/Mapping/NutritionMappingProfile.cs:12-43 | an entity's amounts survive the trip except the trace columns, which are dropped |
| NutritionMapping.DataQuality | backend/src/FoodService/Mapping/NutritionMappingProfile.cs:17-19 | "high" iff the score is at least 0.9, "medium" iff in [0.7, 0.9), "low" otherwise or when null |
| NutritionMapping.EightyFivePercentIsMedium | backend/src/FoodService/Tests/Mapping/MappingProfileTests.cs:113 | a score of 0.85 reads "medium" |
| NutritionMapping.DataQualityMonotone | backend/src/FoodService/Mapping/NutritionMappingProfile.cs:17-19 | a higher score never reads a lower quality |
| NutritionMapping.CreateConfidence | backend/src/FoodService/Mapping/NutritionMappingProfile.cs:30-32 | "high" gives 0.9, "medium" 0.7, anything else 0.5 |
| NutritionMapping.UpdateConfidence | backend/src/FoodService/Mapping/NutritionMappingProfile.cs:52-55 | only "high", "medium" and "low" set a score, the same one a create would |
| NutritionMapping.QualityRoundTrip | backend/src/FoodService/Mapping/NutritionMappingProfile.cs:17-55 | a known quality label maps to a score that reads back as the same label |
| NutritionMapping.UnknownQualityReadsLow | backend/src/FoodService/Mapping/NutritionMappingProfile.cs:17-32 | an unknown label on create reads back as "low" |
| NutritionMapping.ToNutritionFactsDto | backend/src/FoodService/Mapping/NutritionMappingProfile.cs:12-21 | ids, source and times copied; renamed amounts; quality from the score; last verified is the update time |
| NutritionMapping.CreateNutritionFacts | backend/src/FoodService/Mapping/NutritionMappingProfile.cs:24-43 | a new record is per 100 g, holds the DTO's amounts and no trace column, and is scored from the quality label |
| NutritionMapping.CreatedFactsReadBack | backend/src/FoodService/Mapping/NutritionMappingProfile.cs:12-43 | a created record shows the DTO's amounts, and its quality when it was "high" or "medium" |
| NutritionMapping.UpdateNutritionFacts | backend/src/FoodService/Mapping/NutritionMappingProfile.cs:45-66 | given members replace their columns, others and the trace columns are kept; the score changes only for a known label |
| NutritionMapping.UnknownQualityKeepsScore | backend/src/FoodService/Mapping/NutritionMappingProfile.cs:52-55 | an unknown label leaves the score as it was |
| NutritionMapping.EmptyNutritionUpdate | backend/src/FoodService/Mapping/NutritionMappingProfile.cs:45-66 | an empty update only moves the update time |
| NutritionMapping.NutritionUpdateIdempotent | backend/src/FoodService/Mapping/NutritionMappingProfile.cs:45-66 | applying the same update twice equals applying it once |
| NutritionMapping.UpdatedNutrientsReadBack | backend/src/FoodService/Mapping/NutritionMappingProfile.cs:12-66 | an updated member is shown with its new value |
| FoodMapping.FactsNutrient | backend/src/FoodService/Mapping/FoodMappingProfile.cs:16-19 | a nutrient is read iff the food has facts with that column |
| FoodMapping.ToFoodListDto | backend/src/FoodService/Mapping/FoodMappingProfile.cs:16-19 | scalar members copied; calories and protein from the facts when present; category name is the category's Vietnamese name or empty |
| FoodMapping.ListingReadsOnlyCaloriesAndProtein | backend/src/FoodService/Mapping/FoodMappingProfile.cs:16-19 | two foods differing only in other nutrition columns list alike |
| FoodMapping.BrokenRiceListing | backend/src/FoodService/Tests/Mapping/MappingProfileTests.cs:76-78 | broken rice with 350 kcal and 12 g protein in category "Cơm" lists as such |
| FoodMapping.DetailsAlternatives | backend/src/FoodService/Mapping/FoodMappingProfile.cs:21-26 | empty for a null or empty column or a JSON null; the parsed list otherwise; a parse failure is the JSON error it was |
| FoodMapping.AlternativesColumn | backend/src/FoodService/Mapping/FoodMappingProfile.cs:31-32 | null for an empty list, the serializer's text otherwise; a serializer failure is an error |
| FoodMapping.CreateFood | backend/src/FoodService/Mapping/FoodMappingProfile.cs:29-44 | fails iff the alternatives fail to serialize; otherwise a new unverified pending food with no category, facts or verifier, the DTO's members and the clock for both times |
| FoodMapping.CreatedFoodListing | backend/src/FoodService/Mapping/FoodMappingProfile.cs:16-44 | a created food lists with its id, names, serving and source, unverified, with no calories, protein or category name |
| FoodMapping.Overlay | backend/src/FoodService/Mapping/FoodMappingProfile.cs:64 | a given member replaces the current one, a null one keeps it |
| FoodMapping.ApplyFoodUpdate | backend/src/FoodService/Mapping/FoodMappingProfile.cs:46-64 | identity, verification and creation kept; null members skipped; alternatives overlaid; update time now |
| FoodMapping.UpdateFood | backend/src/FoodService/Mapping/FoodMappingProfile.cs:46-64 | fails iff a non-empty list fails to serialize; otherwise null members are skipped, a null or empty list keeps the current column and a non-empty one stores its text |
| FoodMapping.EmptyFoodUpdateOnlyTouchesTimestamp | backend/src/FoodService/Mapping/FoodMappingProfile.cs:46-64 | an all-null update only moves the update time |
| FoodMapping.FoodUpdateIdempotent | backend/src/FoodService/Mapping/FoodMappingProfile.cs:46-64 | applying the same update twice equals applying it once |
| FoodMapping.UpdateKeepsVerification | backend/src/FoodService/Mapping/FoodMappingProfile.cs:59-63 | an update never changes the verified flag, status, verifier or verification time |
| FoodMapping.UpdateWithCreatedAlternativesKeepsColumn | backend/src/FoodService/Mapping/FoodMappingProfile.cs:29-64 | updating a created food with the very list it was created with changes only its update time |
| MappingExtensions.ParseAlternativeServingSizes | backend/src/FoodService/Extensions/MappingExtensions.cs:47-60 | the parsed list, or empty for a null or empty column, a JSON null or any exception |
| MappingExtensions.ParseAgreesWithDetails | backend/src/FoodService/Extensions/MappingExtensions.cs:47-60 | the reader agrees with the details mapping where it succeeds and answers empty where it throws |
| MappingExtensions.ToAlternativeServingSizesJson | backend/src/FoodService/Extensions/MappingExtensions.cs:65-78 | null for a null or empty list or a serializer exception, the serializer's text otherwise |
| MappingExtensions.JsonAgreesWithCreateColumn | backend/src/FoodService/Extensions/MappingExtensions.cs:65-78 | the writer gives the create mapping's column where it succeeds and null where it throws |
| MappingExtensions.WrittenColumnReadsBack | backend/src/FoodService/Extensions/MappingExtensions.cs:47-78 | a written column is read back as the list written, given a deserializer that reads the text back |
| MappingExtensions.ToFoodEntity | backend/src/FoodService/Extensions/MappingExtensions.cs:185-197 | fails iff the create mapping fails; the new food is active, unverified and pending with both times now, and otherwise is the create mapping's food |
| Int32.Wrap | backend/src/FoodService/DTOs/Common/PaginationRequest.cs:35 | an unchecked result is the in-range value congruent to the exact one modulo 2^32 |
| Int32.Mul | backend/src/FoodService/DTOs/Common/PaginationRequest.cs:35 | an unchecked product equals the exact one iff that fits in 32 bits |
| ApiResponses.SuccessResponse | backend/src/FoodService/DTOs/Common/ApiResponse.cs:17-25 | success with the data and message, no errors |
| ApiResponses.ErrorResponse | backend/src/FoodService/DTOs/Common/ApiResponse.cs:28-36 | failure with the message and the given errors, or none when null; never data |
| ApiResponses.ValidationErrorResponse | backend/src/FoodService/DTOs/Common/ApiResponse.cs:39-47 | failure with the fixed message and the given validation errors |
| ApiResponses.SuccessFlagSeparatesFactories | backend/src/FoodService/DTOs/Common/ApiResponse.cs:17-47 | a success response never equals a failure response, and failures carry no data |
| ApiResponses.Ceiling | backend/src/FoodService/DTOs/Common/ApiResponse.cs:59 | the least integer at or above its argument |
| ApiResponses.PaginatedResponse.TotalPages | backend/src/FoodService/DTOs/Common/ApiResponse.cs:59 | with a positive page size, the pages hold the count and one page fewer would not |
| ApiResponses.PaginatedResponse.PreviousPageNumber | backend/src/FoodService/DTOs/Common/ApiResponse.cs:60-62 | a previous page exists iff past page 1, and it is the page before |
| ApiResponses.PaginatedResponse.NextPageNumber | backend/src/FoodService/DTOs/Common/ApiResponse.cs:61-63 | a next page exists iff before the last page, and it is the page after |
| ApiResponses.Create | backend/src/FoodService/DTOs/Common/ApiResponse.cs:66-75 | the list and the three numbers are stored as given |
| ApiResponses.TotalPagesJustEnough | backend/src/FoodService/ResponseHelpers/Common/PaginatedResponse.cs:12-16 | pages are never negative, zero iff there are no items, and just enough to hold the count |
| ApiResponses.EmptyHasNoNextPage | backend/src/FoodService/ResponseHelpers/Common/PaginatedResponse.cs:12-16 | an empty result has no next page |
| ApiResponses.NextThenPrevious | backend/src/FoodService/ResponseHelpers/Common/PaginatedResponse.cs:12-16 | stepping to the next page and back returns to the page |
| ApiResponses.NextPageExactlyBeforeLast | backend/src/FoodService/DTOs/Common/ApiResponse.cs:59-63 | a next page exists exactly before the last page |
| ApiResponses.HasMoreResultsWraps | backend/src/FoodService/DTOs/Common/ApiResponse.cs:101 | as written, page 21474837 of 100 items claims more results for a single item |
| ApiResponses.HasMoreResultsAgreesInRange | backend/src/FoodService/DTOs/Common/ApiResponse.cs:101 | where the product fits in 32 bits the flag is the exact comparison |
| ApiResponses.HasMoreResultsIsHasNextPage | backend/src/FoodService/DTOs/Common/ApiResponse.cs:101 | computed exactly, "more results" holds iff a next page exists |
| PaginationRequests.SkipAsWritten | backend/src/FoodService/DTOs/Common/PaginationRequest.cs:35 | as written, a 32-bit value; for any page above `int.MinValue` it equals the true product iff that fits; page `int.MinValue` wraps to `int.MaxValue` times the size |
| PaginationRequests.SkipAsWrittenAtMinValue | backend/src/FoodService/DTOs/Common/PaginationRequest.cs:35 | an unvalidated page `int.MinValue` of size 1 skips `int.MaxValue` rows |
| PaginationRequests.SkipAsWrittenOverflows | backend/src/FoodService/DTOs/Common/PaginationRequest.cs:13-35 | a valid request for page 21474838 of 100 items skips a negative number of rows |
| PaginationRequests.Skip | backend/src/FoodService/DTOs/Common/PaginationRequest.cs:35 | a valid request never skips a negative number of rows |
| PaginationRequests.SkipIsWholePages | backend/src/FoodService/DTOs/Common/PaginationRequest.cs:35 | the skip is exactly the rows of the pages before the requested one |
| PaginationRequests.SkipAgreesInRange | backend/src/FoodService/DTOs/Common/PaginationRequest.cs:35 | up to page 21474837 the 32-bit skip is exact |
| PaginationRequests.FirstPageSkipsNothing | backend/src/FoodService/DTOs/Common/PaginationRequest.cs:35 | page 1 skips nothing |
| PaginationRequests.DefaultRequestStartsAtTheTop | backend/src/FoodService/DTOs/Common/PaginationRequest.cs:13-30 | the default request is valid, for page 1, ascending |
| PaginationRequests.ConsecutivePagesAdjoin | backend/src/FoodService/DTOs/Common/PaginationRequest.cs:35 | each page starts where the previous one ends |
| PaginationRequests.SkipWithinTotalPages | backend/src/FoodService/DTOs/Common/PaginationRequest.cs:35 | a valid page starts inside the result iff it is at most the total number of pages |

## Left out

- Database access, `async`, logging and dependency injection are left out. The database is a `FoodStore` map passed to each operation, and each query is a function over it.
- The clock (`DateTime.UtcNow`) and fresh GUIDs (`Guid.NewGuid()`) are parameters of the operations that read them.
- `ApiResponse<T>.Timestamp`, `ApiResponse<T>.RequestId` and `PaginatedResponse<T>.Timestamp` are left out. They read the clock or a fresh GUID.
- `System.Text.Json` is modelled as `serialize`/`deserialize` parameters. Whether the real serializer round-trips is not proved, so `MappingExtensions.WrittenColumnReadsBack` takes it as a precondition.
- Culture-sensitive `ToLower` is left out. `Strings.Lower` folds only ASCII letters, so non-ASCII capitals are not folded.
- The decimal formatting of `$"{g}g"` is left out. A grams label is kept symbolically as `GramsText(g)`.
- Decimal precision (28 digits) and rounding of intermediate products are left out. Decimals are exact reals.
- The double-precision division inside `TotalPages` is modelled as exact division. For counts and page sizes within 32 bits the ceiling of the rounded quotient equals the ceiling of the exact one.
- `ApiResponses.PaginatedResponse.TotalPages`: a page size of 0 is left out (`requires pageSize != 0`). C# then divides by zero in doubles and casts an infinity or NaN to `int`, which is unspecified.
- The two `PaginatedResponse<T>` classes (in `DTOs/Common` and `ResponseHelpers/Common`) differ only in the name of their list. One datatype stands for both.
- `CategoryTree.ToHierarchicalCategoryDto` requires distinct category ids, as the table's key guarantees. Duplicate ids are not modelled.
- `CategoryTree.BuildCategoryHierarchy`: a ghost fuel bound, derived from the chain of parents, makes the recursion terminate. This is why a category whose parent chain loops is never reached.
- `CategoryTree`: the number of nodes in the built tree is not proved directly. Coverage is stated through `Reachable`.
- AutoMapper's own `Children` mapping is modelled as an empty list. The tree builder overwrites it for every reached category.
- `CreateNutritionFactsDto` is not part of this model. Its shape (amounts, quality label, data source) is inferred from the profile's create mapping.
- `CreateFoodDto.NutritionFacts` and `CreateFoodDto.AllergenIds` are ignored, as the create mapping ignores them.
- Allergen mappings are left out.
- The pass-through extension wrappers are left out because each only calls the mapper. These are `ToFoodListDto`, `ToFoodDetailsDto`, `UpdateFromDto`, `ToNutritionFactsEntity`, `ToApiResponse` and `ToPaginatedFoodListDto`.
- `MappingExtensions.ToFoodEntity` returns the entity as a value. Aliasing between the mapped entity and other references is not captured.
- `ServingSizeService.FruitSizes`: the source keeps the fruit sizes in a `Dictionary` and takes the first matching entry in enumeration order. The model fixes that order to the order of insertion, which .NET gives for a dictionary that is never modified but does not document.
- `VietnameseServings.CommonServings`: the source's table is a public static mutable `Dictionary`. The model treats it as a constant; changes made to it at run time are not captured.
- The navigation properties (`Parent`, `Foods` items beyond their count) are not modelled.
- `NutritionCalculation.CalculateRecipeNutrition` is the corrected recipe total (see Findings). The source's version is `NutritionCalculation.CalculateRecipeNutritionAsWritten`.

## Findings

| source | as written | input that shows it | evidently intended | confidence | as-written member | corrected member |
|---|---|---|---|---|---|---|
| backend/src/FoodService/Services/Implementations/NutritionCalculationService.cs:169-206 | the recipe totals start as null decimals and grow with `+=`, and null plus anything stays null | any recipe, e.g. 100 g of a 130 kcal food: the total calories are null | totals starting at 0, so each is the sum over the ingredients | not executed | NutritionCalculation.CalculateRecipeNutritionAsWritten | NutritionCalculation.CalculateRecipeNutrition |
| backend/src/FoodService/DTOs/Common/PaginationRequest.cs:35 | `Skip` multiplies two `int`s unchecked, and the range check allows pages up to `int.MaxValue` | Page = 21474838, PageSize = 100 gives Skip = -2147483596 | the rows of the pages before the requested one, never negative | not executed | PaginationRequests.SkipAsWrittenOverflows | PaginationRequests.Skip |
| backend/src/FoodService/DTOs/Common/ApiResponse.cs:101 | `HasMoreResults` compares the count with an unchecked `int` product | TotalCount = 1, PageNumber = 21474837, PageSize = 100 answers true | true exactly when a next page exists | not executed | ApiResponses.HasMoreResultsWraps | ApiResponses.HasMoreResultsIsHasNextPage |
