# Storefront client state, modelled in Dafny

This project models the client-side state of a grocery-delivery storefront
(a React web client). Its centre is the **cart state manager**
(`CartContext`). It holds the cart lines and the remote cart id. An add or a
quantity change first makes a remote call ("create cart" on the first add,
"upsert item" afterwards) and changes local state only when that call
succeeds. Removing and clearing are local only. The totals are folds over the
lines, and both fields are mirrored into local storage under `cartItems` and
`cartId`.

Around it the model covers:

- the cart drawer's checkout gate and its minus, plus and remove buttons (`CartDrawer`);
- the checkout page's step machine, total with delivery fee and screen choice (`Checkout`);
- the profile store with favourites, partial updates, orders and sales (`UserProfiles`);
- the favourite toggle and the stores read back from storage (`FavoriteStores`);
- the mock session (`Auth`);
- the product listing's category list, record mapping and filter (`Home`).

Shared pieces:

- `Seqs` holds the order-preserving filter used for every `Array.filter`. Its lemmas state what a filter keeps and in what order.
- `Storage` holds the shape of a storage entry: parsable, unparsable or empty.
- `Wrappers` holds `Option`, which stands for `T | null`.

The remote service is a parameter. Each remote operation takes the service's
`Reply`: `Success(id)` or `Failure`. Each one returns the `Request` it sent
(or `None` when it sent none) and a `Notice` tag for the toast it shows. Prices
are integers in cents, and the delivery fee is 599. Clock values (`Date.now()`
ids, ISO dates) are parameters too.

Each state-changing handler is a method with a `modifies` clause (a class method, or a module method on the state object it is given, as for the drawer's buttons and the favourite toggle). Its
`ensures` state the whole new state for every branch and every remote outcome.
The cart methods also state that they preserve two invariants:

- `WellFormed`: one line per product, and no quantity below 1;
- `Mirrored`: storage holds exactly the current state.

Lemmas on the pure functions connect the operations. Examples: totals add up over
concatenation; in a cart with one line per product, a quantity change moves
the totals by the difference; adding a product not yet in the cart and then
removing it gives back the original lines; toggling a non-favourite twice gives
the list back; a filter is an order-preserving subsequence. `ExampleSession` and
`ExampleCheckout` are client methods that drive the classes through a
complete scenario using only their contracts.

Some behaviour of the code is easy to miss, and the model keeps it as written:

- The code does not keep `cartId` null exactly when the cart is empty. A restored cart can have lines and no id, and then every add fails with "cart id missing". A cart id of 0 is falsy, so it survives removing the last line.
- Storage is written by effects after the render, not inside the handler. The model folds each write into the operation that triggers it: a write happens when `setItems` is called or when `cartId` changes value.
- `updateQuantity` for a product with no line still sends the upsert call. After success it adds no line locally (`SetQuantityAbsent`).

## Model

| member | source | states |
|---|---|---|
| `CartContext.CartState.constructor` | src/contexts/CartContext.tsx:50-77 | On mount, each storage key that holds a parsable entry gives its value to the state. An absent, empty or unparsable entry leaves the default (`[]` or null). Afterwards storage mirrors the state. |
| `CartContext.CartState.Reopen` | src/contexts/CartContext.tsx:50-77 | Round trip: a provider mounted over mirrored storage comes up with exactly the same lines and cart id. |
| `CartContext.CartState.AddToCart` | src/contexts/CartContext.tsx:79-164 | Covers the four branches and both remote outcomes. Create is taken only when the cart is empty with no id. With no id otherwise, nothing is sent and nothing changes. An existing product gets an upsert with old quantity + 1. A new product gets an upsert with quantity 1 and is appended. On any failure nothing changes. WellFormed and Mirrored are preserved. |
| `CartContext.CartState.OpenCart` | src/contexts/CartContext.tsx:81-96 | The create request carries customer id null and store id 2. On success the cart id is the returned id and the items are exactly `[product × 1]`. On failure the state is unchanged. |
| `CartContext.CartState.BumpLine` | src/contexts/CartContext.tsx:99-134 | The upsert is sent with the first matching line's quantity + 1. Only after success do the matching lines get that quantity. |
| `CartContext.CartState.AppendLine` | src/contexts/CartContext.tsx:135-154 | The upsert is sent with quantity 1. Only after success is the line appended at the end. |
| `CartContext.CartState.RemoveFromCart` | src/contexts/CartContext.tsx:166-194 | Every line with the id is removed and the rest keep their order. No request is sent. The cart id becomes null exactly when the result is empty and the old id was truthy. The items key is always rewritten. |
| `CartContext.CartState.UpdateQuantity` | src/contexts/CartContext.tsx:196-235 | A quantity of 0 or below acts as a remove and sends nothing. With no cart id, nothing is sent and nothing changes. Otherwise the upsert is sent with that quantity, and only after success do the matching lines take it. |
| `CartContext.CartState.ClearCart` | src/contexts/CartContext.tsx:237-256 | Always leaves items `[]` and cart id null, with no remote call. Storage rewritten. |
| `CartContext.FirstIndex` | src/contexts/CartContext.tsx:99 | `items.find`: the index of the first line with the id, or none exactly when no line has it. |
| `CartContext.SetQuantity` | src/contexts/CartContext.tsx:124-130 | Same length and same products. The matching lines get the new quantity and every other line keeps its quantity. |
| `CartContext.Without` | src/contexts/CartContext.tsx:170 | The result holds only lines of other products, all taken from the input. Every line of another product is in it. |
| `CartContext.WithoutIsSubsequence` | src/contexts/CartContext.tsx:170 | Removing keeps the remaining lines in their original order. |
| `CartContext.SetQuantityAbsent` | src/contexts/CartContext.tsx:218-222 | An update for an id that has no line leaves the lines unchanged: it never adds a line. |
| `CartContext.AppendThenRemove` | src/contexts/CartContext.tsx:149-170 | Appending a new product and then removing it gives back the original lines. |
| `CartContext.AppendKeepsWellFormed` | src/contexts/CartContext.tsx:135-149 | Appending a product that is absent keeps one line per product and positive quantities. |
| `CartContext.SetQuantityKeepsWellFormed` | src/contexts/CartContext.tsx:124-130 | Setting a positive quantity keeps the cart well-formed. |
| `CartContext.WithoutKeepsWellFormed` | src/contexts/CartContext.tsx:170 | Removing keeps the cart well-formed. |
| `CartContext.TotalsOfConcat` | src/contexts/CartContext.tsx:258-264 | Total items and total price are sums over the lines: they add up over any split of the lines. |
| `CartContext.TotalsAfterAppend` | src/contexts/CartContext.tsx:149-153 | An appended line at quantity 1 raises total items by 1 and total price by the unit price. |
| `CartContext.TotalsAfterSetQuantity` | src/contexts/CartContext.tsx:258-264 | In a cart with unique ids, changing one line from quantity q0 to q changes total items by q − q0 and total price by price × (q − q0). |
| `CartContext.TotalsBounds` | src/contexts/CartContext.tsx:258-264 | When every quantity is at least 1, total items ≥ number of lines. If prices are also non-negative, total price ≥ 0. |
| `CartContext.CartState.GetTotalItems` | src/contexts/CartContext.tsx:258-260 | The item count of an empty cart is 0. With every quantity at least 1 it is at least the number of lines. |
| `CartContext.CartState.GetTotalPrice` | src/contexts/CartContext.tsx:262-264 | The total of an empty cart is 0. With positive quantities and non-negative prices it is never negative. |
| `Storage.Restore` | src/contexts/CartContext.tsx:53-68 | A loader adopts the parsed value of a non-empty, parsable entry and otherwise keeps the default. |
| `Seqs.Filter` | src/contexts/CartContext.tsx:170 | `Array.filter`: every kept element comes from the input and passes the test, and every passing element is kept. When some element fails, the result is strictly shorter. |
| `Seqs.FilterIsSubsequence` | src/contexts/UserProfileContext.tsx:133 | A filter's result is an order-preserving subsequence of its input. |
| `Seqs.FilterConcat` | src/components/Home.tsx:101-105 | Filtering distributes over concatenation. |
| `Seqs.FilterKeepsAll` | src/components/Home.tsx:101-105 | When every element passes, the filter returns its input. |
| `CartDrawer.HandleCheckout` | src/components/Cart.tsx:18-52 | An empty cart gives only the empty-cart error. A non-empty cart with a truthy id gives the success toast, then `onCheckout`, then `onClose`. Otherwise the no-active-cart error, with no navigation. `onCheckout` is called exactly when the cart is non-empty with a truthy id. |
| `CartDrawer.PressMinus` | src/components/Cart.tsx:112-119 | Calls `updateQuantity(id, q − 1)`. At quantity 1 or below: nothing is sent, the product's lines are removed, a truthy cart id is reset to null once the cart is empty, and storage is rewritten. Above 1 with no cart id: nothing is sent and the cart is unchanged. Above 1 with a cart id: the upsert with q − 1 is sent. On success the lines take q − 1 and the id stays. On failure the cart is unchanged. |
| `CartDrawer.PressPlus` | src/components/Cart.tsx:125-132 | Calls `updateQuantity(id, q + 1)`. With a cart id, the upsert with q + 1 is sent. On success the lines take q + 1 and the id stays. On failure the cart is unchanged. With no cart id, nothing is sent and the cart (id and storage included) is unchanged. |
| `CartDrawer.PressRemove` | src/components/Cart.tsx:100-107 | Calls `removeFromCart(id)`. No line for the product remains and nothing is sent. A truthy cart id is reset, in state and in storage, once the cart is empty. The cart stays well-formed and mirrored. |
| `CartDrawer.LineSubtotal` | src/components/Cart.tsx:136 | The subtotal beside a line is one unit price at quantity 1. It is never negative for a non-negative price and quantity. |
| `CartDrawer.TotalSplitsAtLine` | src/components/Cart.tsx:136-147 | For any line k, the total shown under the lines is the total of the lines before k, plus line k's subtotal, plus the total of the lines after k. |
| `Checkout.ScreenFor` | src/components/Checkout.tsx:62-124 | The login-required screen shows exactly when the user is not signed in. The empty-cart screen shows exactly when signed in, the cart is empty and the step is not 3. The confirmation shows exactly when signed in at step 3. Otherwise the form for the current step shows. |
| `Checkout.ConfirmationAfterPayment` | src/components/Checkout.tsx:80-98 | After payment (cart empty, step 3), a signed-in user sees the confirmation. A signed-out user sees the login screen. |
| `Checkout.TotalWithDelivery` | src/components/Checkout.tsx:29-30 | An empty cart costs exactly the 599-cent fee. With positive quantities and non-negative prices (well-formedness not required) the total is never below the fee. |
| `Checkout.FeeChargedOnce` | src/components/Checkout.tsx:29-30 | The fee is charged once: the total for lines a + b is the total for a plus the price sum of b. |
| `Checkout.CheckoutPage.constructor` | src/components/Checkout.tsx:17-27 | The page starts at step 1 with empty delivery fields, payment method "credit", not processing. |
| `Checkout.CheckoutPage.EditDelivery` | src/components/Checkout.tsx:168 | An input change replaces the delivery info and nothing else. |
| `Checkout.CheckoutPage.SubmitAddress` | src/components/Checkout.tsx:32-43 | The step moves to 2 exactly when address, number, neighborhood, city and zip code are all non-empty (complement optional). Otherwise the step is unchanged and an error is reported. |
| `Checkout.CheckoutPage.Back` | src/components/Checkout.tsx:274-281 | The back button sets the step to 1. |
| `Checkout.CheckoutPage.BeginPayment` | src/components/Checkout.tsx:45-50 | Submitting payment sets the processing flag while the step stays. |
| `Checkout.CheckoutPage.FinishPayment` | src/components/Checkout.tsx:52-60 | After the wait, the cart is cleared (items `[]` and id null), so the page then shows the confirmation to a signed-in user and the login screen otherwise. The items key is rewritten as `[]`, and the id key as null whenever the id was set. The step is 3 and the processing flag is reset. |
| `Auth.AuthState.constructor` | src/contexts/AuthContext.tsx:29 | The session starts with no user. |
| `Auth.AuthState.IsAuthenticated` | src/contexts/AuthContext.tsx:68 | Holds exactly when there is a user. |
| `Auth.AuthState.Login` | src/contexts/AuthContext.tsx:31-42 | Returns true exactly when email and password are non-empty. The user then becomes `{1, "Usuário Teste", email}`. Otherwise the user is unchanged. |
| `Auth.AuthState.Register` | src/contexts/AuthContext.tsx:44-55 | Returns true exactly when name, email and password are non-empty. The user then becomes `{1, name, email}`. Otherwise the user is unchanged. |
| `Auth.AuthState.Logout` | src/contexts/AuthContext.tsx:57-59 | The user becomes null and the session is not authenticated. |
| `UserProfiles.ProfileState.constructor` | src/contexts/UserProfileContext.tsx:74-77 | No profiles, no orders, no sales. |
| `UserProfiles.ProfileState.OnUserLoggedIn` | src/contexts/UserProfileContext.tsx:81-94 | A login event creates a profile from the event's user, with no favourites, only when no profile exists yet. Otherwise nothing changes. |
| `UserProfiles.ProfileState.UpdateUserProfile` | src/contexts/UserProfileContext.tsx:103-105 | The profile becomes the shallow merge with the supplied fields. A null profile stays null. Other state is untouched. |
| `UserProfiles.MergeUser` | src/contexts/UserProfileContext.tsx:104 | The spread `{...prev, ...profile}`: each field the partial profile supplies overrides, and every other field keeps its old value. |
| `UserProfiles.MergeUserLaws` | src/contexts/UserProfileContext.tsx:104 | A merge that supplies no field is the identity. Merging the same fields twice equals merging once. |
| `UserProfiles.ProfileState.CreateStoreProfile` | src/contexts/UserProfileContext.tsx:107-114 | The store profile gets the submitted fields, the clock value as id, and `OwnerFor(profile)` as owner. |
| `UserProfiles.OwnerFor` | src/contexts/UserProfileContext.tsx:111 | The owner is the profile's id when there is a profile with a non-zero id, and 1 otherwise. It is never 0. |
| `UserProfiles.ProfileState.UpdateStoreProfile` | src/contexts/UserProfileContext.tsx:116-118 | The store profile becomes the shallow merge. A null store profile stays null. |
| `UserProfiles.MergeStore` | src/contexts/UserProfileContext.tsx:117 | The store spread: each supplied field overrides, and every other field is kept. |
| `UserProfiles.MergeStoreLaws` | src/contexts/UserProfileContext.tsx:117 | The empty merge is the identity, and merging is idempotent. |
| `UserProfiles.ProfileState.AddFavoriteStore` | src/contexts/UserProfileContext.tsx:120-127 | The id is appended to the favourites, with no de-duplication. All other profile fields stay. A null profile stays null. |
| `UserProfiles.WithFavorite` | src/contexts/UserProfileContext.tsx:124 | The result is one longer, keeps the old list as its prefix, and has the new id last. |
| `UserProfiles.ProfileState.RemoveFavoriteStore` | src/contexts/UserProfileContext.tsx:129-136 | Every occurrence of the id is removed from the favourites. All other fields stay. A null profile stays null. |
| `UserProfiles.WithoutFavorite` | src/contexts/UserProfileContext.tsx:133 | The id does not occur in the result. Every other id occurs in the result exactly when it occurred before. Removing a favourite shortens the list. |
| `UserProfiles.WithoutFavoriteKeepsOrder` | src/contexts/UserProfileContext.tsx:133 | The remaining favourites keep their order. |
| `UserProfiles.AddThenRemoveFavorite` | src/contexts/UserProfileContext.tsx:120-136 | Adding an id that was not a favourite and then removing it gives back the original list. |
| `UserProfiles.ProfileState.AddOrder` | src/contexts/UserProfileContext.tsx:138-145 | Exactly one order is appended, with the clock id and date. Earlier orders are kept in order. |
| `UserProfiles.ProfileState.AddSale` | src/contexts/UserProfileContext.tsx:147-154 | Exactly one sale is appended, with the clock id and date. Earlier sales are kept in order. |
| `FavoriteStores.RegisteredStores` | src/components/FavoriteStores.tsx:15-26 | A parsable entry gives its list. An absent, empty or unparsable entry gives no stores. |
| `FavoriteStores.ToggleFavorite` | src/components/FavoriteStores.tsx:30-48 | With no profile nothing happens. Otherwise a favourite is removed and a non-favourite is added. |
| `FavoriteStores.Toggled` | src/components/FavoriteStores.tsx:33-47 | Toggling a favourite removes it everywhere (the list gets shorter). Toggling a non-favourite appends it at the end. |
| `FavoriteStores.ToggleFlips` | src/components/FavoriteStores.tsx:33-47 | A toggle leaves every other id's membership unchanged. |
| `FavoriteStores.ToggleTwice` | src/components/FavoriteStores.tsx:33-47 | Toggling a non-favourite twice gives back the exact list. |
| `FavoriteStores.ShownFavorites` | src/components/FavoriteStores.tsx:58-60 | The stores shown are exactly the registered stores whose id is a favourite of the profile. With no profile, none are shown. |
| `FavoriteStores.ShownFavoritesInOrder` | src/components/FavoriteStores.tsx:58-60 | The favourites are shown in registered order. |
| `Home.BuildCategories` | src/components/Home.tsx:38-42 | The category list is "Todos" followed by the fetched category names, in response order. |
| `Home.ToListings` | src/components/Home.tsx:59-67 | Each listed product keeps the id, name, price and category it was fetched with. Its unit is "kg". Its description is the name followed by " frescas e de alta qualidade." (a missing name reads "undefined"). Its image comes from the table keyed by the lower-cased name, or is the default. |
| `Home.ImageFor` | src/components/Home.tsx:62-66 | A name whose lower-cased form is in the table gets that entry's image. A product with no name, or with a lower-cased name missing from the table, gets the default. |
| `Home.ImageIgnoresCase` | src/components/Home.tsx:66 | The image lookup does not depend on letter case. |
| `Home.Lower` | src/components/Home.tsx:103 | Lower-casing keeps the length and lower-cases each character, so no ASCII capital remains in the result. |
| `Home.IncludesIffOccurs` | src/components/Home.tsx:103 | The search's substring test holds exactly when the term occurs at some position of the name. |
| `Home.Kept` | src/components/Home.tsx:102-104 | A kept product has a name and a matching category (or "Todos" is selected). With "Todos" and an empty term, every named product is kept. |
| `Home.FilteredProducts` | src/components/Home.tsx:101-105 | A product is listed exactly when it is in the input, its category matches (or "Todos" is selected), and its lower-cased name contains the lower-cased term. A product with no name is never listed. |
| `Home.FilteredInOrder` | src/components/Home.tsx:101-105 | The listing is an order-preserving subsequence of the products. |
| `Home.UnfilteredKeepsNamed` | src/components/Home.tsx:101-105 | With "Todos" and an empty search, every named product is listed. If all products are named, the listing is the whole list. |

## Left out

- The HTTP clients and the route payloads. Each remote call is one `Reply` parameter. The axios wrapper, headers and any response field other than the created cart's `id` are not modelled.
- Asynchrony. Each operation is atomic and runs to completion before the next one starts. This leaves out two things: two overlapping adds racing each other, and `addToCart` computing the new quantity from the captured `items` but applying it through `prevItems`.
- Toasts and console logging. Each toast is one `Notice` or effect tag; its text is not modelled.
- The `catch` branches of `removeFromCart`, `clearCart` and `handleCheckout`. Nothing in their `try` blocks can throw in the model.
- Floating-point prices and `toFixed` formatting. Prices are integer cents.
- JSON serialisation. A stored entry is parsable, unparsable or empty. An entry that parses to a value of another shape (say a number under `cartItems`) is not modelled.
- JavaScript number semantics for ids and quantities. NaN, fractions and overflow are not modelled; a cart id is an unbounded integer.
- `Date.now()` and `new Date().toISOString()`. They are the `now` and `date` parameters.
- The `window` listener registration of the login event. Only the handler body is modelled (`OnUserLoggedIn`).
- The fetch handlers of the listing page. They do network I/O, and concurrent `setProducts` calls overwrite each other. Only their pure parts are modelled: the category loop and the product `map`. A product whose `categoria` is missing makes the handler throw; that is not modelled.
- The payment-method radio buttons. Only the initial value "credit" is modelled; payment is simulated and the choice affects nothing.
- `src/contexts/RegisterContext.tsx`, the register and login handlers of the sign-up and login pages, and the pure rendering components (header, product card, skeleton, index page, order tracking, store and customer profile forms). They are not part of this model.
- `Home.ImageFor`: does not model JavaScript's inherited object keys. A name that lower-cases to "constructor" or "\_\_proto\_\_" finds a truthy non-URL value in the source's table. The model gives the default image there.
- `Home.NameText`: a product name sent as JSON `null` would read "null" in the description, not "undefined". Such a product never passes the listing's filter, so this is not modelled.
- `Checkout.CheckoutPage.EditDelivery`: takes the whole delivery record after an input change. The page rewrites one field per input; that per-field update is not modelled.
- `Home.Lower`: models `toLowerCase` only for ASCII and Latin-1 capital letters. Other Unicode case mappings are not modelled.
- `CartContext.CustomerId`: always null. The session's user record has no role field, so the customer test never holds.
- The profile's `type` field is a plain string. The module it is imported from does not export that type.
