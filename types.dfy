/** The records of the storefront (`src/types/index.ts`). Money is counted in whole
    minor units and a rating in tenths of a star, so all arithmetic is exact. Product
    fields that only feed the display (images, reviews and the stock `quantity`) are
    dropped. */
module Types {
  import opened Common

  datatype Category = Category(id: string, name: string)

  datatype Product = Product(
    id: string,
    name: string,
    description: string,
    price: int,
    discountPrice: Option<int>,
    category: Category,
    inStock: bool,
    unit: string,
    rating: Option<int>,
    featured: bool,            // an absent `featured` flag reads as false
    tags: Option<seq<string>>)

  /** `discountPrice || price`: a missing discount and a discount of 0 both fall back
      to the list price. */
  function EffectivePrice(p: Product): (price: int)
    ensures p.discountPrice == None ==> price == p.price
    ensures p.discountPrice == Some(0) ==> price == p.price
    ensures p.discountPrice.Some? && p.discountPrice.value != 0 ==> price == p.discountPrice.value
  {
    if p.discountPrice.Some? && p.discountPrice.value != 0 then p.discountPrice.value else p.price
  }

  /** `rating || 0`. */
  function RatingOrZero(p: Product): (rating: int)
    ensures p.rating == None ==> rating == 0
    ensures p.rating.Some? ==> rating == p.rating.value
  {
    if p.rating.Some? then p.rating.value else 0
  }

  datatype CartItem = CartItem(product: Product, quantity: int)

  datatype Cart = Cart(items: seq<CartItem>, totalAmount: int, totalItems: int)

  datatype Address = Address(
    id: string,
    street: string,
    city: string,
    state: string,
    zipCode: string,
    country: string,
    isDefault: bool)

  datatype User = User(
    id: string,
    name: string,
    email: string,
    phone: Option<string>,
    address: Option<Address>,
    avatar: Option<string>)

  datatype OrderStatus = Pending | Processing | Shipped | Delivered | Cancelled

  datatype OrderItem = OrderItem(product: Product, quantity: int)

  datatype Order = Order(
    id: string,
    userId: string,
    items: seq<OrderItem>,
    totalAmount: int,
    status: OrderStatus,
    createdAt: string,
    updatedAt: string,
    shippingAddress: Address,
    paymentMethod: string)
}
