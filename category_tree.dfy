/** The category tree: `CategoryDto` objects whose `Children` lists are
    filled in place, starting from the categories without a parent and
    descending through the categories that name each one as their parent. */
module CategoryTree {
  import opened Nullable
  import opened FoodModel
  import opened CategoryMapping

  /** `CategoryDto`: its scalar members never change once mapped; the
      hierarchy builder reassigns `Children`. */
  class CategoryDto {
    const data: CategoryData
    var children: seq<CategoryDto>

    constructor (data: CategoryData)
      ensures this.data == data && children == []
    {
      this.data := data;
      children := [];
    }
  }

  /** No two category objects share an id (the id is the table's key). */
  predicate UniqueIds(all: seq<CategoryDto>)
  {
    forall a, b :: a in all && b in all && a.data.id == b.data.id ==> a == b
  }

  /** `allCategories.Where(c => c.ParentId == id)`, in list order. */
  function ChildrenOf(all: seq<CategoryDto>, id: Guid): (r: seq<CategoryDto>)
    ensures forall c :: c in r ==> c in all && c.data.parentId == Some(id)
    ensures forall c :: c in all && c.data.parentId == Some(id) ==> c in r
    ensures |r| <= |all|
  {
    if |all| == 0 then []
    else
      var last := all[|all| - 1];
      ChildrenOf(all[..|all| - 1], id) + (if last.data.parentId == Some(id) then [last] else [])
  }

  /** `categoryDtos.Where(c => c.ParentId == null)`, in list order. */
  function Roots(all: seq<CategoryDto>): (r: seq<CategoryDto>)
    ensures forall c :: c in r ==> c in all && c.data.parentId.None?
    ensures forall c :: c in all && c.data.parentId.None? ==> c in r
    ensures |r| <= |all|
  {
    if |all| == 0 then []
    else
      var last := all[|all| - 1];
      Roots(all[..|all| - 1]) + (if last.data.parentId.None? then [last] else [])
  }

  /** A chain from a root category down to `Last(path)`, each link naming
      the one before it as its parent. */
  ghost predicate IsRootChain(all: seq<CategoryDto>, path: seq<CategoryDto>)
  {
    && |path| > 0
    && path[0].data.parentId.None?
    && (forall k :: 0 <= k < |path| ==> path[k] in all)
    && (forall k :: 0 < k < |path| ==> path[k].data.parentId == Some(path[k - 1].data.id))
  }

  /** `c` is `p` or lies in the subtree below `p`, at most `k` levels down. */
  ghost predicate Under(all: seq<CategoryDto>, c: CategoryDto, p: CategoryDto, k: nat)
    decreases k
  {
    c == p || (k > 0 && exists q :: q in ChildrenOf(all, p.data.id) && Under(all, c, q, k - 1))
  }

  /** `c` lies in the subtree of some root category. */
  ghost predicate Reachable(all: seq<CategoryDto>, c: CategoryDto)
  {
    exists r, k :: r in Roots(all) && Under(all, c, r, k)
  }

  /** The categories not yet on the chain: the recursion's measure. */
  ghost function Fuel(all: seq<CategoryDto>, path: seq<CategoryDto>): nat
  {
    |set c | c in all && c !in path|
  }

  /** `BuildCategoryHierarchy`: every category in the subtree below `parent`
      gets as its children the categories naming it as their parent, and no
      other category is touched. The ghost `path` is the chain from a root to
      `parent`; with unique ids it never repeats a category, which bounds the
      recursion. */
  method BuildCategoryHierarchy(parent: CategoryDto, all: seq<CategoryDto>, ghost path: seq<CategoryDto>, ghost fuel: nat)
    requires UniqueIds(all) && IsRootChain(all, path) && path[|path| - 1] == parent
    requires fuel == Fuel(all, path)
    modifies set c | c in all
    ensures forall c :: c in all ==>
              c.children == if Under(all, c, parent, fuel) then ChildrenOf(all, c.data.id) else old(c.children)
    decreases fuel
  {
    ghost var below: nat := if fuel > 0 then fuel - 1 else 0;
    var kids := ChildrenOf(all, parent.data.id);
    if |kids| > 0 {
      ChainExtends(all, path, kids[0]);
    }
    parent.children := kids;
    for i := 0 to |kids|
      invariant forall c :: c in all ==>
                  c.children == if Covered(all, c, parent, kids, i, below) then ChildrenOf(all, c.data.id) else old(c.children)
    {
      ChainExtends(all, path, kids[i]);
      BuildCategoryHierarchy(kids[i], all, path + [kids[i]], below);
      CoveredStep(all, parent, kids, i, below);
    }
    forall c | c in all
      ensures Covered(all, c, parent, kids, |kids|, below) <==> Under(all, c, parent, fuel)
    {
      CoveredIsUnder(all, c, parent, fuel);
    }
  }

  /** `c` is `parent` or below one of the first `n` of `kids`. */
  ghost predicate Covered(all: seq<CategoryDto>, c: CategoryDto, parent: CategoryDto, kids: seq<CategoryDto>, n: nat, below: nat)
    requires n <= |kids|
  {
    c == parent || exists j :: 0 <= j < n && Under(all, c, kids[j], below)
  }

  lemma CoveredStep(all: seq<CategoryDto>, parent: CategoryDto, kids: seq<CategoryDto>, n: nat, below: nat)
    requires n < |kids|
    ensures forall c :: Covered(all, c, parent, kids, n + 1, below) <==> Covered(all, c, parent, kids, n, below) || Under(all, c, kids[n], below)
  {
  }

  /** Having visited all children, the covered categories are exactly the
      subtree below `parent`. */
  lemma CoveredIsUnder(all: seq<CategoryDto>, c: CategoryDto, parent: CategoryDto, fuel: nat)
    requires |ChildrenOf(all, parent.data.id)| > 0 ==> fuel > 0
    ensures var kids := ChildrenOf(all, parent.data.id);
            Covered(all, c, parent, kids, |kids|, if fuel > 0 then fuel - 1 else 0) <==> Under(all, c, parent, fuel)
  {
    if fuel > 0 {
      UnderOneLevelDown(all, c, parent, fuel);
    }
  }

  /** One level of `Under`: below `p` means `p` itself or below one of its
      children, one level less deep. */
  lemma UnderOneLevelDown(all: seq<CategoryDto>, c: CategoryDto, p: CategoryDto, k: nat)
    requires k > 0
    ensures var kids := ChildrenOf(all, p.data.id);
            Under(all, c, p, k) <==> c == p || exists j :: 0 <= j < |kids| && Under(all, c, kids[j], k - 1)
  {
    var kids := ChildrenOf(all, p.data.id);
    if c != p && Under(all, c, p, k) {
      var q :| q in kids && Under(all, c, q, k - 1);
      var j :| 0 <= j < |kids| && kids[j] == q;
    }
    if exists j :: 0 <= j < |kids| && Under(all, c, kids[j], k - 1) {
      var j :| 0 <= j < |kids| && Under(all, c, kids[j], k - 1);
      var q := kids[j];
      assert q in ChildrenOf(all, p.data.id) && Under(all, c, q, k - 1);
      assert Under(all, c, p, k);
    }
  }

  /** A child of the chain's last category extends the chain, is not on it
      already, and leaves one category fewer off the chain. */
  lemma ChainExtends(all: seq<CategoryDto>, path: seq<CategoryDto>, kid: CategoryDto)
    requires UniqueIds(all) && IsRootChain(all, path)
    requires kid in ChildrenOf(all, path[|path| - 1].data.id)
    ensures IsRootChain(all, path + [kid])
    ensures kid !in path
    ensures Fuel(all, path + [kid]) == Fuel(all, path) - 1
  {
    var longer := path + [kid];
    assert IsRootChain(all, longer);
    if kid in path {
      var i :| 0 <= i < |path| && path[i] == kid;
      NoRepeat(all, longer, i, |path|);
    }
    assert (set c | c in all && c !in longer) == (set c | c in all && c !in path) - {kid};
  }

  /** A root chain never visits a category twice. */
  lemma {:induction false} NoRepeat(all: seq<CategoryDto>, path: seq<CategoryDto>, i: nat, j: nat)
    requires UniqueIds(all) && IsRootChain(all, path)
    requires i < j < |path|
    ensures path[i] != path[j]
    decreases i
  {
    if path[i] == path[j] {
      assert path[j].data.parentId == Some(path[j - 1].data.id);
      if i > 0 {
        assert path[i].data.parentId == Some(path[i - 1].data.id);
        assert path[i - 1] in all && path[j - 1] in all;
        NoRepeat(all, path, i - 1, j - 1);
      }
    }
  }

  /** `categories.Select(c => c.ToCategoryDto(mapper)).ToList()`: one fresh
      object per category, in order, with no children yet. */
  method MapCategories(categories: seq<FoodCategory>) returns (dtos: seq<CategoryDto>)
    ensures |dtos| == |categories|
    ensures forall k :: 0 <= k < |dtos| ==> dtos[k].data == ToCategoryData(categories[k]) && fresh(dtos[k]) && dtos[k].children == []
  {
    dtos := [];
    for i := 0 to |categories|
      invariant |dtos| == i
      invariant forall k :: 0 <= k < i ==> dtos[k].data == ToCategoryData(categories[k]) && fresh(dtos[k]) && dtos[k].children == []
    {
      var dto := new CategoryDto(ToCategoryData(categories[i]));
      dtos := dtos + [dto];
    }
  }

  /** `ToHierarchicalCategoryDto`: one fresh `CategoryDto` per category, in
      order; the categories without a parent are returned, and every
      category reachable from them holds the categories naming it as their
      parent. The ghost `all` is the full list of mapped categories. */
  method ToHierarchicalCategoryDto(categories: seq<FoodCategory>) returns (roots: seq<CategoryDto>, ghost all: seq<CategoryDto>)
    requires forall i, j :: 0 <= i < j < |categories| ==> categories[i].id != categories[j].id
    ensures |all| == |categories|
    ensures forall i :: 0 <= i < |all| ==> all[i].data == ToCategoryData(categories[i]) && fresh(all[i])
    ensures UniqueIds(all)
    ensures roots == Roots(all)
    ensures forall c :: c in all ==> c.children == if Reachable(all, c) then ChildrenOf(all, c.data.id) else []
  {
    var dtos := MapCategories(categories);
    MappedIdsUnique(categories, dtos);
    roots := Roots(dtos);
    for i := 0 to |roots|
      invariant forall c :: c in dtos ==>
                  c.children == if RootCovered(dtos, c, roots, i) then ChildrenOf(dtos, c.data.id) else []
    {
      BuildCategoryHierarchy(roots[i], dtos, [roots[i]], Fuel(dtos, [roots[i]]));
      RootCoveredStep(dtos, roots, i);
    }
    forall c | c in dtos
      ensures RootCovered(dtos, c, roots, |roots|) <==> Reachable(dtos, c)
    {
      ReachableWithinFuel(dtos, c);
    }
    all := dtos;
  }

  /** Categories with distinct ids map to category objects with distinct ids. */
  lemma MappedIdsUnique(categories: seq<FoodCategory>, dtos: seq<CategoryDto>)
    requires forall i, j :: 0 <= i < j < |categories| ==> categories[i].id != categories[j].id
    requires |dtos| == |categories| && forall k :: 0 <= k < |dtos| ==> dtos[k].data == ToCategoryData(categories[k])
    ensures UniqueIds(dtos)
  {
    forall a, b | a in dtos && b in dtos && a.data.id == b.data.id
      ensures a == b
    {
      var i :| 0 <= i < |dtos| && dtos[i] == a;
      var j :| 0 <= j < |dtos| && dtos[j] == b;
      assert categories[i].id == categories[j].id;
    }
  }

  /** `c` lies below one of the first `n` roots. */
  ghost predicate RootCovered(all: seq<CategoryDto>, c: CategoryDto, roots: seq<CategoryDto>, n: nat)
    requires n <= |roots|
  {
    exists j :: 0 <= j < n && Under(all, c, roots[j], Fuel(all, [roots[j]]))
  }

  lemma RootCoveredStep(all: seq<CategoryDto>, roots: seq<CategoryDto>, n: nat)
    requires n < |roots|
    ensures forall c :: RootCovered(all, c, roots, n + 1) <==>
              RootCovered(all, c, roots, n) || Under(all, c, roots[n], Fuel(all, [roots[n]]))
  {
  }

  /** With unique ids, a category below `Last(path)` at any depth is below
      it within the number of categories off the chain. */
  lemma {:induction false} UnderWithinFuel(all: seq<CategoryDto>, path: seq<CategoryDto>, c: CategoryDto, k: nat)
    requires UniqueIds(all) && IsRootChain(all, path) && Under(all, c, path[|path| - 1], k)
    ensures Under(all, c, path[|path| - 1], Fuel(all, path))
    decreases k
  {
    var p := path[|path| - 1];
    if c != p {
      var q :| q in ChildrenOf(all, p.data.id) && Under(all, c, q, k - 1);
      ChainExtends(all, path, q);
      var longer := path + [q];
      assert longer[|longer| - 1] == q;
      UnderWithinFuel(all, longer, c, k - 1);
    }
  }

  /** A category is reachable exactly when it lies below some root within
      the bound the builder uses. */
  lemma ReachableWithinFuel(all: seq<CategoryDto>, c: CategoryDto)
    requires UniqueIds(all)
    ensures Reachable(all, c) <==> exists r :: r in Roots(all) && Under(all, c, r, Fuel(all, [r]))
  {
    if Reachable(all, c) {
      var r, k :| r in Roots(all) && Under(all, c, r, k);
      UnderWithinFuel(all, [r], c, k);
    }
  }

  /** Every root category is in the tree. */
  lemma RootReached(all: seq<CategoryDto>, r: CategoryDto)
    requires r in all && r.data.parentId.None?
    ensures Reachable(all, r)
  {
    assert Under(all, r, r, 0);
  }

  /** The children of a category in the tree are in the tree. */
  lemma ChildReached(all: seq<CategoryDto>, p: CategoryDto, c: CategoryDto)
    requires Reachable(all, p) && c in ChildrenOf(all, p.data.id)
    ensures Reachable(all, c)
  {
    var r, k :| r in Roots(all) && Under(all, p, r, k);
    UnderExtends(all, p, r, k, c);
  }

  /** Stepping from a category to one of its children goes one level deeper. */
  lemma {:induction false} UnderExtends(all: seq<CategoryDto>, x: CategoryDto, p: CategoryDto, k: nat, c: CategoryDto)
    requires Under(all, x, p, k) && c in ChildrenOf(all, x.data.id)
    ensures Under(all, c, p, k + 1)
    decreases k
  {
    if x == p {
      assert Under(all, c, c, k);
    } else {
      var q :| q in ChildrenOf(all, p.data.id) && Under(all, x, q, k - 1);
      UnderExtends(all, x, q, k - 1, c);
    }
  }

  /** A group of categories that holds no root and contains the parent of
      each of its members (a category whose parent id matches no category,
      or a cycle of parent links) never enters the tree. */
  lemma UnrootedGroupNotReached(all: seq<CategoryDto>, group: set<CategoryDto>, c: CategoryDto)
    requires forall x :: x in group ==> x.data.parentId.Some?
    requires forall x, y :: x in group && y in all && x.data.parentId == Some(y.data.id) ==> y in group
    requires c in group
    ensures !Reachable(all, c)
  {
    if Reachable(all, c) {
      var r, k :| r in Roots(all) && Under(all, c, r, k);
      UnderClosed(all, group, c, r, k);
    }
  }

  /** The ancestors of a member of such a group are in the group. */
  lemma {:induction false} UnderClosed(all: seq<CategoryDto>, group: set<CategoryDto>, c: CategoryDto, p: CategoryDto, k: nat)
    requires forall x, y :: x in group && y in all && x.data.parentId == Some(y.data.id) ==> y in group
    requires c in group && p in all && Under(all, c, p, k)
    ensures p in group
    decreases k
  {
    if c != p {
      var q :| q in ChildrenOf(all, p.data.id) && Under(all, c, q, k - 1);
      UnderClosed(all, group, c, q, k - 1);
    }
  }

  /** A category whose parent id matches no category is left out. */
  lemma OrphanNotReached(all: seq<CategoryDto>, c: CategoryDto)
    requires c.data.parentId.Some?
    requires forall y :: y in all ==> y.data.id != c.data.parentId.value
    ensures !Reachable(all, c)
  {
    UnrootedGroupNotReached(all, {c}, c);
  }

  /** Two categories naming each other as parent are both left out. */
  lemma TwoCycleNotReached(all: seq<CategoryDto>, a: CategoryDto, b: CategoryDto)
    requires UniqueIds(all) && a in all && b in all
    requires a.data.parentId == Some(b.data.id) && b.data.parentId == Some(a.data.id)
    ensures !Reachable(all, a) && !Reachable(all, b)
  {
    UnrootedGroupNotReached(all, {a, b}, a);
    UnrootedGroupNotReached(all, {a, b}, b);
  }
}
