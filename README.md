# Grocery app state layer, modelled in Dafny

This project models the client-side state of a React Native grocery shopping app. It covers:

- the cart store: one entry per product, with totals recomputed after every change;
- the product catalogue store: fetches, lookups, the category filter and the text search;
- the theme store and the theme toggle component;
- the mock sign-in session store;
- the logic of four screens: category products (sorting), product details (related
  products, quantity selector, add to cart), search (results and recent searches) and
  order history (status tabs, item preview).

Stores and screen states whose actions update fields in place are classes, and their
methods carry `modifies` clauses. Where the state has an invariant, a `Valid()` predicate
states it:

- The cart, session, search and quantity-selector actions that change the state require
  `Valid()` and keep it. The reset actions (`ClearCart`, `Logout`) establish it from any
  state. The session's `ClearError` touches no field its `Valid()` reads, so its frame
  clause keeps it.
- The theme store's methods establish `Valid()` from any state.
- The catalogue store and the order-history state have no invariant beyond their field
  types. Their methods state each field's new value instead.

The pure queries and the list edits behind each action are functions, with lemmas about
them.

Files:

| file | module | models |
|---|---|---|
| `common.dfy` | `Common` | `find`/`findIndex`/`filter`/`includes`/`toLowerCase`/`trim` on JavaScript arrays and strings |
| `types.dfy` | `Types` | the records of `src/types/index.ts` |
| `cart.dfy` | `CartLedger` | `src/store/useCartStore.ts` |
| `catalogue.dfy` | `Catalogue` | `src/store/useProductStore.ts` |
| `theme.dfy` | `ThemeStore` | `src/store/useThemeStore.ts` |
| `theme_toggle.dfy` | `ThemeToggle` | `src/components/ThemeToggle.tsx` |
| `session.dfy` | `Session` | `src/store/useUserStore.ts` |
| `category_screen.dfy` | `CategoryProducts` | `src/screens/CategoryProductsScreen.tsx` |
| `product_details.dfy` | `ProductDetails` | `src/screens/ProductDetailsScreen.tsx` |
| `search_screen.dfy` | `Search` | `src/screens/SearchScreen.tsx` |
| `order_history.dfy` | `OrderHistory` | `src/screens/OrderHistoryScreen.tsx` |

Conventions:

- Money is an `int` in minor units, and a rating is an `int`. Only order and arithmetic
  on them matter here.
- A product's effective price is its discount price when that is present and non-zero,
  and its list price otherwise. This is JavaScript's `discountPrice || price`.
- Every asynchronous action is one atomic step from one settled state to the next.
  - `Date.now()` becomes a parameter `now`.
  - The fixture lists a fetch loads become parameters.
  - Whether the awaited delay resolves becomes the parameter `delayResolved`. The delay
    always resolves in the app, so `delayResolved == false` stands for the `catch`
    branch.

Two behaviours of the code that the model keeps as they are:

- **Non-positive quantities in `addToCart`.** `addToCart` adds any quantity, whatever its
  sign (`CartLedger.AddDoesNotGuardSign`). Only `updateQuantity` treats `quantity <= 0`
  as a removal.
- **The discount price.** `discountPrice` is used whenever it is truthy, with no
  comparison against `price` (`Types.EffectivePrice`, `CartLedger.DiscountTakesPrecedence`).

## Model

| member | source | states |
|---|---|---|
| `Common.FirstMatch` | src/store/useCartStore.ts:27-29 | `findIndex`: -1 exactly when no element passes; otherwise the index of an element that passes, with none before it passing |
| `Common.Select` | src/store/useCartStore.ts:69-71 | `filter`: a subsequence of the input that holds each kept value exactly as often as the input does, and no other value; with nothing rejected it is the input |
| `Common.Lower` | src/store/useProductStore.ts:107 | `toLowerCase`: same length; each ASCII capital becomes its small letter, and every other character is kept |
| `Common.Trim` | src/store/useProductStore.ts:107 | `trim`: a slice of the input with only white space cut off either end; empty exactly when the input is all white space, otherwise neither end is white space |
| `Common.Decimal` | src/store/useUserStore.ts:76 | the decimal text of a timestamp: non-empty digits with no leading zero |
| `Common.DecimalValue` | src/store/useUserStore.ts:76 | the digits read back as a number give the timestamp again |
| `Common.Contains` | src/store/useProductStore.ts:115-118 | `includes`: true exactly when the term is a prefix of the text from some position on |
| `Types.EffectivePrice` | src/store/useCartStore.ts:54 | `discountPrice || price`: the list price when the discount is missing or 0, and the discount price whenever it is present and non-zero |
| `Types.RatingOrZero` | src/screens/CategoryProductsScreen.tsx:49 | `rating || 0`: a missing rating counts as 0, and a present one as itself |
| `CartLedger.IndexOf` | src/store/useCartStore.ts:27-29 | the first entry whose product id matches, or -1 exactly when none does |
| `CartLedger.AddItems` | src/store/useCartStore.ts:33-43 | one entry longer exactly when the id was absent; every old entry keeps its product and place; entries with other ids are untouched |
| `CartLedger.AddItemsHoldsSum` | src/store/useCartStore.ts:33-43 | after an add the product's id is in the list, holding its old quantity (0 when absent) plus `quantity` |
| `CartLedger.RemoveItems` | src/store/useCartStore.ts:69-71 | the entries with other ids, in order and each as often as before; the id is absent afterwards; an absent id leaves the list unchanged |
| `CartLedger.UpdateItems` | src/store/useCartStore.ts:103-105 | same length and products; each entry with the id holds exactly `quantity`, and the others keep theirs |
| `CartLedger.TotalItemsCountsEntries` | src/store/useCartStore.ts:45-48 | `totalItems`: with every entry positive, at least one unit per entry |
| `CartLedger.TotalAmountNonNegative` | src/store/useCartStore.ts:50-55 | `totalAmount`: no negative line, so no negative total |
| `CartLedger.WithTotals` | src/store/useCartStore.ts:58-64 | the stored snapshot holds exactly the new items; the empty list gives the initial cart |
| `CartLedger.TotalsOfConcat` | src/store/useCartStore.ts:45-56 | both totals are additive over concatenation |
| `CartLedger.TotalsOfReplace` | src/store/useCartStore.ts:45-56 | replacing one entry changes each total by that entry's difference |
| `CartLedger.AddItemsTotals` | src/store/useCartStore.ts:25-56 | adding raises `totalItems` by exactly `quantity`, and `totalAmount` by the stored product's effective price times `quantity` |
| `CartLedger.RemoveUniqueEntry` | src/store/useCartStore.ts:67-71 | with unique ids, removal cuts out exactly the one matching entry |
| `CartLedger.RemoveItemsTotals` | src/store/useCartStore.ts:67-93 | removal lowers each total by exactly the removed entry's share; an absent id changes neither total |
| `CartLedger.UpdateItemsTotals` | src/store/useCartStore.ts:95-127 | an update moves each total from the entry's old quantity to the new one; an absent id changes neither total |
| `CartLedger.UpdateUniqueEntry` | src/store/useCartStore.ts:103-105 | with unique ids, an update rewrites exactly the one matching entry, in place |
| `CartLedger.AddKeepsIdsUnique` | src/store/useCartStore.ts:33-43 | adding never creates a second entry for a product id |
| `CartLedger.RemoveKeepsIdsUnique` | src/store/useCartStore.ts:69-71 | removal keeps ids unique |
| `CartLedger.UpdateKeepsIdsUnique` | src/store/useCartStore.ts:103-105 | an update keeps ids unique |
| `CartLedger.UpdateAbsentIsIdentity` | src/store/useCartStore.ts:103-105 | updating an id that is not in the cart changes nothing, and in particular adds nothing |
| `CartLedger.RemoveIdempotent` | src/store/useCartStore.ts:67-93 | removing the same id twice is the same as removing it once |
| `CartLedger.AddAccumulates` | src/store/useCartStore.ts:25-43 | two adds of one product merge into one entry holding their sum |
| `CartLedger.UpdateSetsQuantity` | src/store/useCartStore.ts:103-105 | for an id in the cart, the update keeps its position and sets its quantity absolutely, not as a delta |
| `CartLedger.OperationsKeepQuantitiesPositive` | src/store/useCartStore.ts:25-127 | positive quantities stay positive under a positive add, a positive update and a removal |
| `CartLedger.AddDoesNotGuardSign` | src/store/useCartStore.ts:33-39 | an add of -5 to an entry holding 2 leaves -3, because the sign is never checked |
| `CartLedger.DiscountTakesPrecedence` | src/store/useCartStore.ts:51-56 | with a list price of 100 and a discount price of 80, three units total 240 |
| `CartLedger.CartStore.constructor` | src/store/useCartStore.ts:14-23 | the empty cart with zero totals |
| `CartLedger.CartStore.AddToCart` | src/store/useCartStore.ts:25-65 | the new items are `AddItems` of the old; the totals agree with the items; ids stay unique; `totalItems` rises by `quantity` |
| `CartLedger.CartStore.RemoveFromCart` | src/store/useCartStore.ts:67-93 | the new items are `RemoveItems` of the old; each total falls by the removed entry's share |
| `CartLedger.CartStore.UpdateQuantity` | src/store/useCartStore.ts:95-127 | a quantity `<= 0` removes the entry; otherwise the entry holds exactly `quantity`, `totalItems` moves by the difference, and an absent id leaves the cart unchanged |
| `CartLedger.CartStore.ClearCart` | src/store/useCartStore.ts:129-131 | back to the initial empty cart |
| `Catalogue.GetProductById` | src/store/useProductStore.ts:96-98 | none exactly when no product has the id; otherwise the first product with the id |
| `Catalogue.GetProductsByCategory` | src/store/useProductStore.ts:100-104 | exactly the products of that category, each as often as in the list, in catalogue order |
| `Catalogue.FeaturedOf` | src/store/useProductStore.ts:82 | exactly the featured products, in order |
| `Catalogue.SearchProducts` | src/store/useProductStore.ts:106-120 | a blank lowered-and-trimmed query returns every product; otherwise exactly the products whose lowered name, description, some tag or category name contains the term, in order |
| `Catalogue.ProductStore.constructor` | src/store/useProductStore.ts:25-31 | empty lists, not loading, no error |
| `Catalogue.ProductStore.FetchProducts` | src/store/useProductStore.ts:36-54 | on success stores the fixture and no error; otherwise keeps the products and sets the fetch error; never left loading; the other lists are untouched |
| `Catalogue.ProductStore.FetchCategories` | src/store/useProductStore.ts:56-73 | the same discipline for categories |
| `Catalogue.ProductStore.FetchFeaturedProducts` | src/store/useProductStore.ts:75-94 | on success stores the featured products of the fixture |
| `Catalogue.ProductStore.ClearError` | src/store/useProductStore.ts:122-124 | clears the error only |
| `ThemeStore.IsDarkFor` | src/store/useThemeStore.ts:38-39 | light mode is never dark, dark mode always is, and system mode is dark exactly for a dark system scheme |
| `ThemeStore.PaletteFor` | src/store/useThemeStore.ts:44 | the dark palette exactly when dark |
| `ThemeStore.ToggledMode` | src/store/useThemeStore.ts:48-52 | the toggle never picks system mode and always changes an explicit mode; it picks light exactly when the mode is not light, so system goes to light |
| `ThemeStore.ToggleThemeFlipsExplicitMode` | src/store/useThemeStore.ts:48-52 | outside system mode, `toggleTheme` flips `isDark` |
| `ThemeStore.ToggleThemeFromLightSystemKeepsLight` | src/store/useThemeStore.ts:48-52 | in system mode with a light system scheme, `toggleTheme` leaves the app light |
| `ThemeStore.ThemeState.constructor` | src/store/useThemeStore.ts:31-34 | system mode, light palette, a light system scheme; the invariant holds |
| `ThemeStore.ThemeState.SetMode` | src/store/useThemeStore.ts:36-46 | stores the mode and restores the invariant (`isDark` from the mode and the system scheme, the palette from `isDark`) from any state |
| `ThemeStore.ThemeState.ToggleTheme` | src/store/useThemeStore.ts:48-52 | light becomes dark, and anything else becomes light; the invariant holds |
| `ThemeStore.ThemeState.SetSystemTheme` | src/store/useThemeStore.ts:54-64 | records the scheme, keeps the mode, and restores the invariant |
| `ThemeToggle.HandleToggleMode` | src/components/ThemeToggle.tsx:25-31 | always an explicit mode; from system mode the opposite of what is shown; otherwise the other explicit mode |
| `ThemeToggle.HandleToggleFlipsDark` | src/components/ThemeToggle.tsx:25-31 | under the store's invariant, every press flips `isDark` |
| `ThemeToggle.HandleToggle` | src/components/ThemeToggle.tsx:25-31 | applied to the store, `isDark` is flipped and the invariant kept |
| `ThemeToggle.HandleSystemTheme` | src/components/ThemeToggle.tsx:33-35 | system mode, with `isDark` exactly when the system scheme is dark |
| `ThemeToggle.ButtonHighlights` | src/components/ThemeToggle.tsx:52-108 | exactly one of the sun and the moon is lit; the phone is lit exactly in system mode; light lights the sun, dark the moon, and in system mode the moon is lit exactly when the app is dark |
| `ThemeToggle.MoonShowsDarkPalette` | src/components/ThemeToggle.tsx:94-108 | under the store's invariant, the moon is lit exactly when the dark palette is used |
| `ThemeToggle.ModeLabel` | src/components/ThemeToggle.tsx:41-45 | the system, light or dark caption exactly for that mode |
| `Session.Merge` | src/store/useUserStore.ts:111-114 | each field present in the patch wins, and each absent one keeps the user's value |
| `Session.MergeIdentityAndIdempotence` | src/store/useUserStore.ts:111-114 | an empty patch keeps the user, and applying a patch twice equals applying it once |
| `Session.AddressUpdateIsAddressPatch` | src/store/useUserStore.ts:128-156 | `updateAddress` is `updateProfile` with a patch holding only the address |
| `Session.RegisteredUser` | src/store/useUserStore.ts:74-79 | the mock user with the given name and email and the id `"user"` followed by the timestamp's digits |
| `Session.UserStore.constructor` | src/store/useUserStore.ts:26-31 | signed out, not loading, no error |
| `Session.UserStore.Login` | src/store/useUserStore.ts:38-64 | the mock email with the fixed password signs in the mock user; anything else keeps the session and sets the credentials error |
| `Session.UserStore.Register` | src/store/useUserStore.ts:66-92 | signs in the registered user, and no error |
| `Session.UserStore.Logout` | src/store/useUserStore.ts:94-96 | back to the initial state from any state |
| `Session.UserStore.UpdateProfile` | src/store/useUserStore.ts:98-126 | without a user, the profile error; with one, the patch merged over it; authentication unchanged |
| `Session.UserStore.UpdateAddress` | src/store/useUserStore.ts:128-156 | without a user, the address error; with one, its address replaced |
| `Session.UserStore.ResetPassword` | src/store/useUserStore.ts:158-178 | the session is untouched; the error is set exactly when the email is not the mock one |
| `Session.UserStore.ClearError` | src/store/useUserStore.ts:180-182 | clears the error only |
| `CategoryProducts.Compare` | src/screens/CategoryProductsScreen.tsx:42-53 | the comparator is the difference of one numeric key per option |
| `CategoryProducts.Insert` | src/screens/CategoryProductsScreen.tsx:42-53 | inserting into a sorted list keeps it sorted and adds exactly the one element |
| `CategoryProducts.SortProducts` | src/screens/CategoryProductsScreen.tsx:42-53 | a sorted permutation of the input; the default option keeps the catalogue order |
| `CategoryProducts.SortOrders` | src/screens/CategoryProductsScreen.tsx:42-53 | the effective price ascends or descends, ratings (missing as 0) descend, and the default order is unchanged |
| `CategoryProducts.SortLabel` | src/screens/CategoryProductsScreen.tsx:94-105 | each option's caption, and that caption for no other option |
| `CategoryProducts.CategoryScreen` | src/screens/CategoryProductsScreen.tsx:38-140 | a spinner exactly while loading; an error view exactly for a non-empty store error or an unknown category, with the matching message; otherwise the name of the first category with the id, and exactly the category's products in the order the chosen sort gives (a sorted permutation; the catalogue order under the default option), with their count |
| `ProductDetails.SameCategoryOthers` | src/screens/ProductDetailsScreen.tsx:43-46 | the other products of the same category, in order and each as often as in the catalogue |
| `ProductDetails.RelatedProducts` | src/screens/ProductDetailsScreen.tsx:43-47 | the first `min(4, n)` of them, a prefix of that list; all of them when there are fewer than four |
| `ProductDetails.DetailsScreen` | src/screens/ProductDetailsScreen.tsx:40-76 | "not found" exactly for an unknown id; otherwise the first product with the id, its related products, and an add button enabled exactly when in stock |
| `ProductDetails.QuantitySelector.constructor` | src/screens/ProductDetailsScreen.tsx:34 | the selector starts at 1 |
| `ProductDetails.QuantitySelector.HandleQuantityChange` | src/screens/ProductDetailsScreen.tsx:83-87 | applies a step only when the result stays positive, so the quantity never drops below 1 |
| `ProductDetails.QuantitySelector.HandleAddToCart` | src/screens/ProductDetailsScreen.tsx:78-81 | adds the selected quantity to the cart, keeping the cart's invariant and keeping every quantity positive |
| `Search.UpdateRecent` | src/screens/SearchScreen.tsx:48-50 | a known term leaves the list unchanged; a new term goes in front of the first four old entries; at most five entries, without duplicates |
| `Catalogue.SearchTerm` | src/store/useProductStore.ts:107 | the lowered, trimmed query: no capital letter left, and empty exactly when the query is all white space |
| `Catalogue.MatchesTerm` | src/store/useProductStore.ts:114-118 | the search test on one product; the empty term matches every product |
| `Search.BlankAgreesWithStore` | src/screens/SearchScreen.tsx:39 | a query is blank for the screen exactly when it is blank for the store's search |
| `Search.SearchState.constructor` | src/screens/SearchScreen.tsx:25-34 | empty query and results, the four stored searches |
| `Search.SearchState.HandleSearch` | src/screens/SearchScreen.tsx:36-60 | stores the query; a blank query clears the results and keeps the recent list; otherwise the store's search results, exactly the matching products, and the trimmed query recorded |
| `Search.SearchState.HandleRecentSearchPress` | src/screens/SearchScreen.tsx:67-70 | stores the pressed term as the query; for a term taken from the recent list (the only caller, at :186), the results are exactly the store's search for it and the recent list stays as it is, because `Valid()` keeps every stored term trimmed and non-blank |
| `Search.SearchState.ClearSearch` | src/screens/SearchScreen.tsx:62-65 | empties the query and the results only |
| `Search.SearchState.ClearRecentSearches` | src/screens/SearchScreen.tsx:72-75 | empties the recent list only |
| `OrderHistory.FilteredOrders` | src/screens/OrderHistoryScreen.tsx:96-99 | the "all" tab lists every order; a status tab lists exactly the orders in that status, in order and each as often as loaded |
| `OrderHistory.StatusTabsPartition` | src/screens/OrderHistoryScreen.tsx:96-99 | the five status tabs' counts add up to the "all" tab's count |
| `OrderHistory.HistoryScreen` | src/screens/OrderHistoryScreen.tsx:383-401 | the empty state exactly when the chosen tab has no orders; otherwise the tab's filtered orders, exactly, and non-empty |
| `OrderHistory.PreviewOf` | src/screens/OrderHistoryScreen.tsx:214-250 | the first two items, and a "+n more" count exactly when there are more than two; shown plus more is every item |
| `OrderHistory.OrderHistoryState.constructor` | src/screens/OrderHistoryScreen.tsx:34-50 | the loaded orders, with the "all" tab chosen |
| `OrderHistory.OrderHistoryState.FilterOrdersByStatus` | src/screens/OrderHistoryScreen.tsx:73-74 | chooses the tab and leaves the orders untouched |

## Left out

- Persistence: the stores' `persist` wrappers and `AsyncStorage` are not modelled. A store
  here starts from its initial state.
- Timing: the awaited delays, the search screen's 500 ms debounce and the cleanup it
  returns (which is never used as a cleanup, so timers are never cancelled), and
  animations. Each action runs its delayed part at once and atomically, so interleavings
  and the stale `recentSearches` captured by the timer are not captured.
- Search.SearchState.HandleSearch: runs the timer's body immediately. A later keystroke
  cannot overtake an earlier search in the model, although it can in the app.
- Numbers: JavaScript floating-point prices and their rounding are modelled as unbounded
  integers in minor units.
- Common.Lower: covers ASCII letters only. Unicode case mapping is not modelled.
- Common.Trim: strips space, tab, line feed and carriage return only. The other Unicode
  white space that `trim` also strips is not modelled.
- CategoryProducts.SortProducts: states a sorted permutation, and the original order for
  the default option. It does not state stability for equal keys under the other options,
  which `Array.prototype.sort` guarantees.
- Session.UserStore.Login and Session.UserStore.Register: their `catch` branches are
  unreachable, because the mock code never throws.
- Session.UserStore.UpdateProfile: a `Partial<User>` field given explicitly as `undefined`
  overwrites the field in JavaScript. The patch here only has present or absent fields.
- Product fields that no core operation reads are not part of the model: images, reviews
  and stock quantity.
- `OrderHistory.OrderHistoryState`: the selected status is `Option<OrderStatus>`, because
  the tabs only ever pass `null` or one of the five enum values.
- Rendering, styling, navigation, and the screens not named above: checkout and its
  shipping arithmetic, login forms, profile, home and carousel.
- `src/constants/mockData.ts` is not part of this model, apart from the mock user. The
  fixture lists are parameters.
- ProductCard's one-unit add is not modelled separately. It is `AddToCart(product, 1)`, and
  `CartLedger.OperationsKeepQuantitiesPositive` covers it.
