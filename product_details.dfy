/** The product details screen (`src/screens/ProductDetailsScreen.tsx`): the product
    looked up by id, up to four related products, the quantity selector that never goes
    below 1, and the add-to-cart button that hands the selected quantity to the cart. */
module ProductDetails {
  import opened Common
  import opened Types
  import opened Catalogue
  import opened CartLedger

  const MaxRelated: nat := 4

  /** Every other product of the same category, in catalogue order. */
  function SameCategoryOthers(products: seq<Product>, product: Product): (r: seq<Product>)
    ensures IsSubsequence(r, products)
    ensures forall p :: p in r <==> p in products && p.category.id == product.category.id && p.id != product.id
    ensures forall p {:trigger multiset(r)[p]} ::
      multiset(r)[p] == if p.category.id == product.category.id && p.id != product.id then multiset(products)[p] else 0
  {
    Select(products, (p: Product) => p.category.id == product.category.id && p.id != product.id)
  }

  /** `relatedProducts`: the first four products of the same category other than the
      product itself. */
  function RelatedProducts(products: seq<Product>, product: Product): (r: seq<Product>)
    ensures |r| == Min(MaxRelated, |SameCategoryOthers(products, product)|)
    ensures IsSubsequence(r, products)
    ensures forall p :: p in r ==> p.category.id == product.category.id && p.id != product.id
    ensures r == SameCategoryOthers(products, product)[..|r|]
    ensures |r| < MaxRelated ==> r == SameCategoryOthers(products, product)
  {
    var all := SameCategoryOthers(products, product);
    var n := Min(MaxRelated, |all|);
    SubsequencePrefix(all, products, n);
    assert forall p :: p in all[..n] ==> p in all;
    all[..n]
  }

  datatype DetailsView =
    | NotFound
    | Details(product: Product, related: seq<Product>, addEnabled: bool)

  /** What the screen renders: "not found" for an unknown id, otherwise the first
      product with that id, its related products, and an add button that is enabled
      only while the product is in stock. */
  function DetailsScreen(products: seq<Product>, productId: string): (v: DetailsView)
    ensures v.NotFound? <==> forall k :: 0 <= k < |products| ==> products[k].id != productId
    ensures v.Details? ==> v.product == GetProductById(products, productId).value
    ensures v.Details? ==> v.product.id == productId && v.product in products
    ensures v.Details? ==> v.addEnabled == v.product.inStock
    ensures v.Details? ==> v.related == RelatedProducts(products, v.product)
  {
    match GetProductById(products, productId)
    case None => NotFound
    case Some(p) => Details(p, RelatedProducts(products, p), p.inStock)
  }

  /** The screen's local `quantity` state. */
  class QuantitySelector {
    var quantity: int

    ghost predicate Valid()
      reads this
    {
      quantity >= 1
    }

    constructor ()
      ensures Valid() && quantity == 1
    {
      quantity := 1;
    }

    /** `handleQuantityChange`: applies the step only when the result stays positive. */
    method HandleQuantityChange(value: int)
      requires Valid()
      modifies this
      ensures Valid()
      ensures old(quantity) + value > 0 ==> quantity == old(quantity) + value
      ensures old(quantity) + value <= 0 ==> quantity == old(quantity)
    {
      if quantity + value > 0 {
        quantity := quantity + value;
      }
    }

    /** `handleAddToCart`: adds the selected, always positive, quantity of the product;
        so a cart whose quantities were all positive keeps them positive. */
    method HandleAddToCart(product: Product, cart: CartStore)
      requires Valid() && cart.Valid()
      modifies cart
      ensures cart.Valid()
      ensures cart.cart.items == AddItems(old(cart.cart.items), product, quantity)
      ensures AllPositive(old(cart.cart.items)) ==> AllPositive(cart.cart.items)
    {
      if AllPositive(cart.cart.items) {
        OperationsKeepQuantitiesPositive(cart.cart.items, product, product.id, quantity);
      }
      cart.AddToCart(product, quantity);
    }
  }
}
