/** The category products screen (`src/screens/CategoryProductsScreen.tsx`): the
    category's products, copied and sorted by the chosen option, and which view the
    screen shows. The comparator the screen hands to `Array.prototype.sort` is the
    difference of a numeric key, so sorting is a stable sort by that key. */
module CategoryProducts {
  import opened Common
  import opened Types
  import opened Catalogue

  datatype SortOption = Default | PriceAsc | PriceDesc | ByRating

  /** The key whose difference is the comparator: `(a.discountPrice || a.price) -
      (b.discountPrice || b.price)` for ascending price, the reverse for descending
      price, `(b.rating || 0) - (a.rating || 0)` for rating, 0 by default. */
  function SortKey(sortBy: SortOption, p: Product): int {
    match sortBy
    case PriceAsc => EffectivePrice(p)
    case PriceDesc => -EffectivePrice(p)
    case ByRating => -RatingOrZero(p)
    case Default => 0
  }

  /** The comparator of the screen, written as the source writes it. */
  function Compare(sortBy: SortOption, a: Product, b: Product): (c: int)
    ensures c == SortKey(sortBy, a) - SortKey(sortBy, b)
  {
    match sortBy
    case PriceAsc => EffectivePrice(a) - EffectivePrice(b)
    case PriceDesc => EffectivePrice(b) - EffectivePrice(a)
    case ByRating => RatingOrZero(b) - RatingOrZero(a)
    case Default => 0
  }

  /** No pair of elements is out of order for the comparator. */
  ghost predicate SortedBy(sortBy: SortOption, s: seq<Product>) {
    forall i, j :: 0 <= i < j < |s| ==> SortKey(sortBy, s[i]) <= SortKey(sortBy, s[j])
  }

  /** A sorted list stays sorted under a new head that does not compare above its first
      element. */
  lemma ConsSorted(sortBy: SortOption, a: Product, s: seq<Product>)
    requires SortedBy(sortBy, s)
    requires s != [] ==> SortKey(sortBy, a) <= SortKey(sortBy, s[0])
    ensures SortedBy(sortBy, [a] + s)
  {
    var r := [a] + s;
    forall i, j | 0 <= i < j < |r| ensures SortKey(sortBy, r[i]) <= SortKey(sortBy, r[j]) {
      if i == 0 && j > 1 {
        assert SortKey(sortBy, s[0]) <= SortKey(sortBy, s[j - 1]);
      }
    }
  }

  /** Puts `x` in front of the first element it does not compare above. */
  function Insert(sortBy: SortOption, x: Product, s: seq<Product>): (r: seq<Product>)
    requires SortedBy(sortBy, s)
    ensures |r| == |s| + 1
    ensures r[0] == x || (s != [] && r[0] == s[0])
    ensures SortedBy(sortBy, r)
    ensures multiset(r) == multiset(s) + multiset{x}
    ensures sortBy == Default ==> r == [x] + s
  {
    if s == [] || Compare(sortBy, x, s[0]) <= 0 then
      ConsSorted(sortBy, x, s);
      [x] + s
    else
      var tail := s[1..];
      assert s == [s[0]] + tail;
      var rest := Insert(sortBy, x, tail);
      ConsSorted(sortBy, s[0], rest);
      [s[0]] + rest
  }

  /** `[...products].sort(comparator)` as an insertion sort on the copy: a sorted
      permutation of the input; with the default option every comparison is 0 and the
      catalogue order is kept, as a stable sort must keep it. */
  function SortProducts(sortBy: SortOption, s: seq<Product>): (r: seq<Product>)
    ensures |r| == |s|
    ensures multiset(r) == multiset(s)
    ensures SortedBy(sortBy, r)
    ensures sortBy == Default ==> r == s
  {
    if s == [] then []
    else
      assert s == [s[0]] + s[1..];
      Insert(sortBy, s[0], SortProducts(sortBy, s[1..]))
  }

  /** What each option means along the sorted list. */
  lemma {:induction false} SortOrders(sortBy: SortOption, s: seq<Product>, i: int, j: int)
    requires 0 <= i < j < |s|
    ensures var r := SortProducts(sortBy, s);
      && (sortBy == PriceAsc ==> EffectivePrice(r[i]) <= EffectivePrice(r[j]))
      && (sortBy == PriceDesc ==> EffectivePrice(r[i]) >= EffectivePrice(r[j]))
      && (sortBy == ByRating ==> RatingOrZero(r[i]) >= RatingOrZero(r[j]))
      && (sortBy == Default ==> r[i] == s[i])
  {
    var r := SortProducts(sortBy, s);
    assert SortKey(sortBy, r[i]) <= SortKey(sortBy, r[j]);
  }

  const PriceAscLabel: string := "قیمت: کم به زیاد"
  const PriceDescLabel: string := "قیمت: زیاد به کم"
  const RatingLabel: string := "امتیاز"
  const DefaultLabel: string := "پیش‌فرض"

  /** `getSortLabel`: the caption of the sort button; anything but the three named
      options reads as the default, and each option has its own caption. */
  function SortLabel(sortBy: SortOption): (caption: string)
    ensures (caption == PriceAscLabel) == (sortBy == PriceAsc)
    ensures (caption == PriceDescLabel) == (sortBy == PriceDesc)
    ensures (caption == RatingLabel) == (sortBy == ByRating)
    ensures (caption == DefaultLabel) == (sortBy == Default)
  {
    match sortBy
    case PriceAsc => PriceAscLabel
    case PriceDesc => PriceDescLabel
    case ByRating => RatingLabel
    case Default => DefaultLabel
  }

  const CategoryNotFound: string := "دسته‌بندی یافت نشد"

  datatype CategoryView =
    | Loading
    | ErrorView(message: string)
    | ProductList(title: string, products: seq<Product>, count: nat, sortLabel: string)

  /** A store error counts only when it is a non-empty string (`error ||` in the source). */
  predicate HasError(error: Option<string>) {
    error.Some? && error.value != ""
  }

  /** What the screen renders: a spinner while loading; the error view for a store
      error or an unknown category id; otherwise the category's products sorted by
      the chosen option, with their count. */
  function CategoryScreen(categories: seq<Category>, products: seq<Product>, isLoading: bool,
                          error: Option<string>, categoryId: string, sortBy: SortOption): (v: CategoryView)
    ensures v.Loading? <==> isLoading
    ensures v.ErrorView? <==> !isLoading && (HasError(error) || forall k :: 0 <= k < |categories| ==> categories[k].id != categoryId)
    ensures v.ErrorView? ==> v.message == if HasError(error) then error.value else CategoryNotFound
    ensures v.ProductList? ==> v.products == SortProducts(sortBy, GetProductsByCategory(products, categoryId))
    ensures v.ProductList? ==>
      && v.count == |v.products| == |GetProductsByCategory(products, categoryId)|
      && multiset(v.products) == multiset(GetProductsByCategory(products, categoryId))
      && SortedBy(sortBy, v.products)
      && v.sortLabel == SortLabel(sortBy)
      && exists k ::
        && 0 <= k < |categories| && categories[k].id == categoryId && categories[k].name == v.title
        && forall j :: 0 <= j < k ==> categories[j].id != categoryId
  {
    var k := FirstMatch(categories, (c: Category) => c.id == categoryId);
    var inCategory := GetProductsByCategory(products, categoryId);
    var sorted := SortProducts(sortBy, inCategory);
    if isLoading then Loading
    else if HasError(error) || k < 0 then
      ErrorView(if HasError(error) then error.value else CategoryNotFound)
    else
      ProductList(categories[k].name, sorted, |inCategory|, SortLabel(sortBy))
  }
}
