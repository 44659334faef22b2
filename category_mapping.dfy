/** The category mapping rules: the `FoodCategory` entity projected to the
    full and the list DTO (with their food counts), a category created from
    its create DTO, and the update that skips null members. */
module CategoryMapping {
  import opened Nullable
  import opened FoodModel

  /** The `FoodCategory` entity with its loaded `Foods` (by id) and
      `Children`; the `Parent` navigation is not modelled. */
  datatype FoodCategory = FoodCategory(
    id: Guid,
    name: string,
    nameEn: string,
    nameVi: string,
    description: string,
    parentId: Option<Guid>,
    sortOrder: int,
    isActive: bool,
    createdAt: Instant,
    updatedAt: Instant,
    foods: seq<Guid>,
    children: seq<FoodCategory>)

  /** The scalar members of `CategoryDto`; its `Children` list lives in the
      category tree. */
  datatype CategoryData = CategoryData(
    id: Guid,
    name: string,
    nameEn: string,
    nameVi: string,
    description: string,
    iconUrl: Option<string>,
    colorHex: Option<string>,
    parentId: Option<Guid>,
    sortOrder: int,
    isActive: bool,
    createdAt: Instant,
    updatedAt: Instant,
    foodCount: int,
    totalFoodCount: int)

  /** `CategoryListDto`. */
  datatype CategoryListDto = CategoryListDto(
    id: Guid,
    name: string,
    nameVi: string,
    iconUrl: Option<string>,
    colorHex: Option<string>,
    parentId: Option<Guid>,
    sortOrder: int,
    foodCount: int,
    isActive: bool)

  /** `children.Sum(c => c.Foods.Count)`: the foods of the listed categories
      themselves, not of their own children. */
  function SumFoodCounts(children: seq<FoodCategory>): nat
  {
    if |children| == 0 then 0
    else SumFoodCounts(children[..|children| - 1]) + |children[|children| - 1].foods|
  }

  /** The `FoodCategory` to `CategoryDto` map: members copied by name, no
      icon and no colour, `FoodCount` the category's own foods and
      `TotalFoodCount` those plus the foods of its direct children. */
  function ToCategoryData(c: FoodCategory): (r: CategoryData)
    ensures r.id == c.id && r.parentId == c.parentId
    ensures r.name == c.name && r.nameEn == c.nameEn && r.nameVi == c.nameVi && r.description == c.description
    ensures r.iconUrl.None? && r.colorHex.None?
    ensures r.foodCount == |c.foods|
    ensures r.totalFoodCount == |c.foods| + SumFoodCounts(c.children)
  {
    CategoryData(c.id, c.name, c.nameEn, c.nameVi, c.description, None, None, c.parentId,
                 c.sortOrder, c.isActive, c.createdAt, c.updatedAt,
                 |c.foods|, |c.foods| + SumFoodCounts(c.children))
  }

  /** The total never falls below the category's own count, and equals it
      exactly when no direct child has foods. */
  lemma TotalFoodCountBounds(c: FoodCategory)
    ensures ToCategoryData(c).totalFoodCount >= ToCategoryData(c).foodCount
    ensures ToCategoryData(c).totalFoodCount == ToCategoryData(c).foodCount <==>
              forall i :: 0 <= i < |c.children| ==> |c.children[i].foods| == 0
  {
    NoChildFoods(c.children);
  }

  lemma {:induction false} NoChildFoods(children: seq<FoodCategory>)
    ensures SumFoodCounts(children) == 0 <==> forall i :: 0 <= i < |children| ==> |children[i].foods| == 0
    decreases |children|
  {
    if |children| > 0 {
      var front := children[..|children| - 1];
      NoChildFoods(front);
      assert forall i :: 0 <= i < |front| ==> front[i] == children[i];
    }
  }

  /** Grandchildren are not counted: replacing the children of a child
      leaves the total unchanged. */
  lemma {:induction false} GrandchildrenNotCounted(children: seq<FoodCategory>, i: nat, grandchildren: seq<FoodCategory>)
    requires i < |children|
    ensures SumFoodCounts(children[i := children[i].(children := grandchildren)]) == SumFoodCounts(children)
    decreases |children|
  {
    var updated := children[i := children[i].(children := grandchildren)];
    if i < |children| - 1 {
      assert updated[..|updated| - 1] == children[..|children| - 1][i := children[i].(children := grandchildren)];
      GrandchildrenNotCounted(children[..|children| - 1], i, grandchildren);
    } else {
      assert updated[..|updated| - 1] == children[..|children| - 1];
    }
  }

  /** A category with two foods and no children counts 2 and 2 in total. */
  lemma TwoFoodsNoChildren(c: FoodCategory)
    requires |c.foods| == 2 && c.children == []
    ensures ToCategoryData(c).foodCount == 2 && ToCategoryData(c).totalFoodCount == 2
  {
  }

  /** The `FoodCategory` to `CategoryListDto` map: `Name` is the Vietnamese
      name, no icon and no colour, `FoodCount` the category's own foods. */
  function ToCategoryListDto(c: FoodCategory): (r: CategoryListDto)
    ensures r.id == c.id && r.parentId == c.parentId && r.sortOrder == c.sortOrder && r.isActive == c.isActive
    ensures r.name == c.nameVi && r.nameVi == c.nameVi
    ensures r.iconUrl.None? && r.colorHex.None?
    ensures r.foodCount == |c.foods|
  {
    CategoryListDto(c.id, c.nameVi, c.nameVi, None, None, c.parentId, c.sortOrder, |c.foods|, c.isActive)
  }

  /** The list DTO agrees with the full DTO on the count, but shows the
      Vietnamese name where the full DTO shows `Name`. */
  lemma ListAgreesWithFull(c: FoodCategory)
    ensures ToCategoryListDto(c).foodCount == ToCategoryData(c).foodCount
    ensures ToCategoryListDto(c).name == ToCategoryData(c).nameVi
    ensures c.name != c.nameVi ==> ToCategoryListDto(c).name != ToCategoryData(c).name
  {
  }

  /** `CreateCategoryDto`. */
  datatype CreateCategoryDto = CreateCategoryDto(
    name: string,
    nameEn: string,
    nameVi: string,
    description: string,
    iconUrl: Option<string>,
    colorHex: Option<string>,
    parentId: Option<Guid>,
    sortOrder: int,
    isActive: bool)

  /** `CreateCategoryDto` to `FoodCategory`: the id and both timestamps keep
      the entity's defaults (a new id, the current time), the navigations
      start empty; icon and colour have no entity member. */
  function CreateCategory(dto: CreateCategoryDto, newId: Guid, now: Instant): (r: FoodCategory)
    ensures r.id == newId && r.createdAt == now && r.updatedAt == now
    ensures r.foods == [] && r.children == []
    ensures r.name == dto.name && r.nameEn == dto.nameEn && r.nameVi == dto.nameVi && r.description == dto.description
    ensures r.parentId == dto.parentId && r.sortOrder == dto.sortOrder && r.isActive == dto.isActive
  {
    FoodCategory(newId, dto.name, dto.nameEn, dto.nameVi, dto.description, dto.parentId,
                 dto.sortOrder, dto.isActive, now, now, [], [])
  }

  /** A created category reads back with the names it was created with and
      no foods at all. */
  lemma CreatedCategoryReadsBack(dto: CreateCategoryDto, newId: Guid, now: Instant)
    ensures var d := ToCategoryData(CreateCategory(dto, newId, now));
            && d.name == dto.name && d.nameEn == dto.nameEn && d.nameVi == dto.nameVi
            && d.parentId == dto.parentId
            && d.foodCount == 0 && d.totalFoodCount == 0
  {
  }

  /** `UpdateCategoryDto`: every member optional. */
  datatype UpdateCategoryDto = UpdateCategoryDto(
    name: Option<string>,
    nameEn: Option<string>,
    nameVi: Option<string>,
    description: Option<string>,
    iconUrl: Option<string>,
    colorHex: Option<string>,
    parentId: Option<Guid>,
    sortOrder: Option<int>,
    isActive: Option<bool>)

  /** The `UpdateCategoryDto` to `FoodCategory` map: a null member leaves the
      entity's member as it was; `UpdatedAt` is set to the current time; the
      id, the creation time and the navigations are never touched. */
  function UpdateCategory(current: FoodCategory, dto: UpdateCategoryDto, now: Instant): (r: FoodCategory)
    ensures r.id == current.id && r.createdAt == current.createdAt
    ensures r.foods == current.foods && r.children == current.children
    ensures r.updatedAt == now
    ensures r.name == dto.name.OrElse(current.name) && r.nameEn == dto.nameEn.OrElse(current.nameEn)
    ensures r.nameVi == dto.nameVi.OrElse(current.nameVi) && r.description == dto.description.OrElse(current.description)
    ensures r.parentId == (if dto.parentId.Some? then dto.parentId else current.parentId)
    ensures r.sortOrder == dto.sortOrder.OrElse(current.sortOrder) && r.isActive == dto.isActive.OrElse(current.isActive)
  {
    current.(name := dto.name.OrElse(current.name),
         nameEn := dto.nameEn.OrElse(current.nameEn),
         nameVi := dto.nameVi.OrElse(current.nameVi),
         description := dto.description.OrElse(current.description),
         parentId := if dto.parentId.Some? then dto.parentId else current.parentId,
         sortOrder := dto.sortOrder.OrElse(current.sortOrder),
         isActive := dto.isActive.OrElse(current.isActive),
         updatedAt := now)
  }

  /** An update of nothing only moves the timestamp. */
  lemma EmptyUpdateOnlyTouchesTimestamp(current: FoodCategory, now: Instant)
    ensures UpdateCategory(current, UpdateCategoryDto(None, None, None, None, None, None, None, None, None), now)
            == current.(updatedAt := now)
  {
  }

  /** Applying the same update twice is applying it once. */
  lemma UpdateIdempotent(c: FoodCategory, dto: UpdateCategoryDto, now: Instant)
    ensures UpdateCategory(UpdateCategory(c, dto, now), dto, now) == UpdateCategory(c, dto, now)
  {
  }

  /** A null `ParentId` is skipped, so an update can never turn a child
      category into a root. */
  lemma UpdateNeverDetachesParent(c: FoodCategory, dto: UpdateCategoryDto, now: Instant)
    requires c.parentId.Some?
    ensures UpdateCategory(c, dto, now).parentId.Some?
  {
  }
}
