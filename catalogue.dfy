/** The product catalogue store (`src/store/useProductStore.ts`): the read queries are
    pure filters over the product list; the fetch actions and `clearError` update the
    store's fields. The fixture lists a fetch loads are parameters. */
module Catalogue {
  import opened Common
  import opened Types

  const FetchProductsError: string := "Failed to fetch products. Please try again."
  const FetchCategoriesError: string := "Failed to fetch categories. Please try again."
  const FetchFeaturedError: string := "Failed to fetch featured products. Please try again."

  /** `products.find((product) => product.id === id)`: the first product with that id. */
  function GetProductById(products: seq<Product>, id: string): (r: Option<Product>)
    ensures r.None? <==> forall k :: 0 <= k < |products| ==> products[k].id != id
    ensures r.Some? ==> r.value.id == id
    ensures r.Some? ==>
      exists k :: 0 <= k < |products| && products[k] == r.value && (forall j :: 0 <= j < k ==> products[j].id != id)
  {
    var k := FirstMatch(products, (p: Product) => p.id == id);
    if k < 0 then None else Some(products[k])
  }

  /** `products.filter((product) => product.category.id === categoryId)`. */
  function GetProductsByCategory(products: seq<Product>, categoryId: string): (r: seq<Product>)
    ensures IsSubsequence(r, products)
    ensures forall p :: p in r <==> p in products && p.category.id == categoryId
    ensures forall p {:trigger multiset(r)[p]} ::
      multiset(r)[p] == if p.category.id == categoryId then multiset(products)[p] else 0
  {
    Select(products, (p: Product) => p.category.id == categoryId)
  }

  /** The products `fetchFeaturedProducts` stores: those whose `featured` flag is set. */
  function FeaturedOf(products: seq<Product>): (r: seq<Product>)
    ensures IsSubsequence(r, products)
    ensures forall p :: p in r <==> p in products && p.featured
    ensures forall p {:trigger multiset(r)[p]} ::
      multiset(r)[p] == if p.featured then multiset(products)[p] else 0
  {
    Select(products, (p: Product) => p.featured)
  }

  /** `query.toLowerCase().trim()`: no capital letter is left, and the term is empty
      exactly when the query is nothing but white space. */
  function SearchTerm(query: string): (term: string)
    ensures |term| <= |query|
    ensures forall k :: 0 <= k < |term| ==> !('A' <= term[k] <= 'Z')
    ensures term == [] <==> forall k :: 0 <= k < |query| ==> IsSpace(query[k])
  {
    var lowered := Lower(query);
    assert forall k :: 0 <= k < |query| ==> (IsSpace(lowered[k]) <==> IsSpace(query[k]));
    TrimmedLowerHasNoCapitals(query);
    Trim(lowered)
  }

  /** Trimming only cuts a lowered text, so no capital letter comes back. */
  lemma TrimmedLowerHasNoCapitals(query: string)
    ensures forall k :: 0 <= k < |Trim(Lower(query))| ==> !('A' <= Trim(Lower(query))[k] <= 'Z')
  {
    var lowered := Lower(query);
    var a, b :| 0 <= a <= b <= |lowered| && Trim(lowered) == lowered[a..b];
    forall k | 0 <= k < b - a ensures !('A' <= lowered[a..b][k] <= 'Z') {
      assert lowered[a..b][k] == LowerChar(query[a + k]);
    }
  }

  /** The search test on one product: the term occurs in the lowered name, description,
      some tag, or category name. Without tags only the other three fields can match;
      the empty term occurs in every text, so it matches every product. */
  function MatchesTerm(p: Product, term: string): (m: bool)
    ensures term == [] ==> m
  {
    Contains(Lower(p.name), term) ||
    Contains(Lower(p.description), term) ||
    (p.tags.Some? && exists tag :: tag in p.tags.value && Contains(Lower(tag), term)) ||
    Contains(Lower(p.category.name), term)
  }

  /** `searchProducts`: the whole list for a blank query, otherwise exactly the matching
      products in catalogue order. */
  function SearchProducts(products: seq<Product>, query: string): (r: seq<Product>)
    ensures SearchTerm(query) == [] ==> r == products
    ensures SearchTerm(query) != [] ==>
      IsSubsequence(r, products) &&
      (forall p :: p in r <==> p in products && MatchesTerm(p, SearchTerm(query))) &&
      forall p {:trigger multiset(r)[p]} ::
        multiset(r)[p] == if MatchesTerm(p, SearchTerm(query)) then multiset(products)[p] else 0
  {
    var term := SearchTerm(query);
    if term == [] then products
    else Select(products, (p: Product) => MatchesTerm(p, term))
  }

  class ProductStore {
    var products: seq<Product>
    var categories: seq<Category>
    var featuredProducts: seq<Product>
    var isLoading: bool
    var error: Option<string>

    constructor ()
      ensures products == [] && categories == [] && featuredProducts == []
      ensures !isLoading && error == None
    {
      products, categories, featuredProducts := [], [], [];
      isLoading, error := false, None;
    }

    /** `fetchProducts`: clears the error and raises the loading flag, then (the awaited
        delay over) stores `fixture`; only a rejected delay takes the error branch. */
    method FetchProducts(fixture: seq<Product>, delayResolved: bool)
      modifies this
      ensures !isLoading
      ensures delayResolved ==> products == fixture && error == None
      ensures !delayResolved ==> products == old(products) && error == Some(FetchProductsError)
      ensures categories == old(categories) && featuredProducts == old(featuredProducts)
    {
      isLoading, error := true, None;
      if delayResolved {
        products, isLoading := fixture, false;
      } else {
        error, isLoading := Some(FetchProductsError), false;
      }
    }

    /** `fetchCategories`, with the same loading and error discipline. */
    method FetchCategories(fixture: seq<Category>, delayResolved: bool)
      modifies this
      ensures !isLoading
      ensures delayResolved ==> categories == fixture && error == None
      ensures !delayResolved ==> categories == old(categories) && error == Some(FetchCategoriesError)
      ensures products == old(products) && featuredProducts == old(featuredProducts)
    {
      isLoading, error := true, None;
      if delayResolved {
        categories, isLoading := fixture, false;
      } else {
        error, isLoading := Some(FetchCategoriesError), false;
      }
    }

    /** `fetchFeaturedProducts`: stores the featured products of the fixture, in order. */
    method FetchFeaturedProducts(fixture: seq<Product>, delayResolved: bool)
      modifies this
      ensures !isLoading
      ensures delayResolved ==> featuredProducts == FeaturedOf(fixture) && error == None
      ensures !delayResolved ==> featuredProducts == old(featuredProducts) && error == Some(FetchFeaturedError)
      ensures products == old(products) && categories == old(categories)
    {
      isLoading, error := true, None;
      if delayResolved {
        var featured := FeaturedOf(fixture);
        featuredProducts, isLoading := featured, false;
      } else {
        error, isLoading := Some(FetchFeaturedError), false;
      }
    }

    method ClearError()
      modifies this
      ensures error == None
      ensures products == old(products) && categories == old(categories)
      ensures featuredProducts == old(featuredProducts) && isLoading == old(isLoading)
    {
      error := None;
    }
  }
}
