# Food ordering: cart, checkout and order lifecycle

This project models the server side of a small food-ordering web application and proves properties of the model. The model covers:

- **Cart**: each account's embedded cart, with add-or-set, remove and a read that resolves every entry against the catalog.
- **Checkout**: pricing the cart (Σ price × quantity, where a missing item counts as 0). The payment gateway is asked for the total in paise.
- **Confirmation**:
  - the HMAC signature gate over `order_id + "|" + payment_id`;
  - placing an order that copies the cart, then clearing the cart;
  - listing the caller's own orders, newest first.
- **Catalog and registration guards**:
  - creating an item needs an administrator and three truthy fields, and the name must be new;
  - registering needs a new email, and the role flag is `!!isAdmin`.
- **Admin pages**:
  - the dashboard's seven-way conjunctive order filter, and its status update after a successful PATCH;
  - the menu page's delete, edit-save and add on its item list.
- **Cart badge**: the client-side count of portions.
- **Schemas**: creating an item, order or user. This covers required fields, the four-valued order status and the defaults.

Layout, one module per file:

| file | models |
|---|---|
| `Js.dfy` | JavaScript semantics the code relies on: truthiness, `!!`, how `+` renders `undefined`, `toLowerCase`, `includes` |
| `Seqs.dfy` | `Array.prototype.filter` and the subsequence order it keeps |
| `Models.dfy` | the Item, Order and User records and what their schemas do on create |
| `Http.dfy` | sessions and JSON responses |
| `Store.dfy` | the document store: the `Account` class (its cart is changed in place) and the `Db` class (catalog, accounts, orders) |
| `Cart.dfy` | cart entry lookup, add-or-set, remove-all, populate |
| `Pricing.dfy` | line and cart totals, and the paise conversion |
| `CartRoute.dfy`, `CheckoutRoute.dfy`, `OrdersRoute.dfy`, `ItemsRoute.dfy`, `RegisterRoute.dfy` | the route handlers |
| `Dashboard.dfy`, `MenuPage.dfy`, `CartContext.dfy` | the admin pages and the cart badge, as classes over the page state |

Some things the handlers cannot see are passed in as parameters:

- the HMAC function;
- the password hash;
- the gateway's `orders.create`;
- the identity the store assigns to a new document;
- the clock reading.

Each handler method's `ensures` states:

- its response in every case, including each error path with its status and message;
- what it does to the store.

Many handlers reach the state changes through a pure function that decides the answer, paired with lemmas about that function.

Behaviour of the code that a reader of its data types might not expect, each case tied to its source lines:

- **Quantities.** Nothing bounds a cart quantity from below. The cart handler rejects only a falsy quantity, that is a missing one or 0 (src/app/api/cart/route.ts:44). Any other quantity, a negative one included, is stored as given (`CartRoute.NonZeroQuantityStored`); `CartRoute.NegativeQuantityPassesGuard` shows one case.
- **Prices.** Nothing bounds a price from below. The item handler rejects only a falsy price (src/app/api/items/route.ts:22), and the schema only requires that a price is present (src/models/Item.ts:11).
- **Address and phone.** `Order.create` is handed address and phone (src/app/api/orders/route.ts:60-61). The order schema does not declare them (src/models/Order.ts:12-28), so they are not stored, and the `Order` record has no such fields.
- **Duplicate cart entries.** No schema rule forbids two entries for one item (src/models/User.ts:18-23). When the request spells an item id as the store prints it (lower-case hexadecimal), add-or-set never creates one (`Cart.AddOrSetKeepsNoDuplicates`); an id spelled otherwise does, as noted under Left out. In a cart without duplicates, remove then drops exactly one entry (`Cart.RemoveOne`).
- **Phase 1 and phase 2 totals.** The confirmation step reprices the cart as it stands at confirmation time (src/app/api/orders/route.ts:30-48).
  - `OrdersRoute.CheckoutThenConfirm` proves that the checkout amount and the order total agree when nothing changes in between.
  - `OrdersRoute.RepricedBetweenPhases` shows that a price change in between makes them differ.
- **Repeated confirmations.** The signature covers only `order_id|payment_id` (src/app/api/orders/route.ts:19-25), and nothing records a payment as used.
  - Repeated immediately, a confirmation finds the cart empty and places nothing (`OrdersRoute.ReplayAtOnce`).
  - Once the cart has been refilled, the same signed confirmation places a second order for the same payment (`OrdersRoute.ReplayAfterRefill`).

## Model

| member | source | states |
|---|---|---|
| Http.HasUserId | src/app/api/cart/route.ts:39 | definition of the `!session?.user?.id` guard that every signed-in handler answers with 401. `CartRoute.Post`, `CartRoute.Delete`, `CheckoutRoute.Post`, `OrdersRoute.PlaceOutcome` and `OrdersRoute.Get` state that 401 |
| Http.IsAdmin | src/app/api/items/route.ts:16 | definition of the `session?.user?.isAdmin` test. `ItemsRoute.Post` states that anyone else is refused with 401 and the catalog is kept |
| Js.Truthy | src/app/api/register/route.ts:13 | definition of JavaScript truthiness over the modelled values: `undefined`, `null`, `false`, `0` and `""` are falsy. `Js.ToBoolean` states it outright |
| Js.FalsyText | src/app/api/cart/route.ts:44 | definition of `!field` for an optional text field: absent or empty. `CartRoute.Post`, `CartRoute.Delete` and `ItemsRoute.Post` state the 400 answers it guards |
| Js.FalsyNumber | src/app/api/items/route.ts:22 | definition of `!field` for an optional number: absent or 0. `CartRoute.Post`, `ItemsRoute.Post` and `CartRoute.NegativeQuantityPassesGuard` state what it lets through |
| Js.ToBoolean | src/app/api/register/route.ts:13 | definition of `!!v`: false exactly for `undefined`, `null`, `false`, `0` and `""`. The promise it serves, that the stored role is `!!isAdmin`, is stated by `RegisterRoute.RegistrationFields` and `RegisterRoute.Post` |
| Js.Render | src/app/api/orders/route.ts:19 | definition of how `+` renders an optional id: an absent one becomes "undefined". The promise built on it is `OrdersRoute.PayloadDeterminesIds` |
| Js.Lower | src/app/admin/dashboard/page.tsx:69 | lower-casing keeps the length and maps each character, changing exactly the upper-case ASCII letters |
| Js.IncludesAt | src/app/admin/dashboard/page.tsx:71-72 | `s.includes(sub)` holds iff `sub` occurs in `s` at some position |
| Seqs.Filter | src/app/api/cart/route.ts:70 | the filtered list keeps exactly the elements that pass, is no longer than the input and is a subsequence of it |
| Seqs.FilterCounts | src/app/api/orders/route.ts:79 | each passing element is kept as many times as it occurs, and each failing one is dropped |
| Seqs.FilterAllPass | src/app/admin/dashboard/page.tsx:63 | when every element passes, the filter returns the list unchanged |
| Seqs.FilterStronger | src/app/admin/dashboard/page.tsx:97-105 | a stricter test keeps a subsequence of what a looser test keeps |
| Models.FindItem | src/app/api/cart/route.ts:14 | `Item.findById` gives an item iff the catalog has one with that id, and the item it gives is a catalog item with that id |
| Models.StatusName | src/models/Order.ts:23 | definition of the four status strings of the schema's enum. `Models.ParseStatus` and `Models.ParseStatusName` state that they are exactly the accepted strings and that each names one status |
| Models.ParseStatus | src/models/Order.ts:21-25 | a status string is accepted iff it is one of the four enum names, and it maps back to that name |
| Models.ParseStatusName | src/models/Order.ts:7 | each of the four statuses parses back from its name, so the four names are distinct |
| Models.ToLines | src/models/Order.ts:14-19 | each validated order line keeps its item reference and its quantity |
| Models.NewOrder | src/models/Order.ts:12-28 | an order is created iff user, total, a non-empty paymentId and each line's fields are present and the status is absent or one of the four; status defaults to Pending, createdAt to the current time, and every other stored field is the one supplied |
| Models.NewCartEntry | src/models/User.ts:18-23 | definition of one cart entry as the schema builds it: the item reference is required and the quantity defaults to 1. `Models.NewCart` and `Models.NewUser` carry this into the stored user |
| Models.NewCart | src/models/User.ts:18-23 | a cart validates iff every entry does, and it keeps its entries one for one |
| Models.NewUser | src/models/User.ts:13-26 | a user is created iff name, email and password are non-empty and every cart entry names an item. isAdmin is true only when supplied as true. The stored cart is exactly the one `NewCart` builds, with quantities defaulting to 1. Address and phone are copied. An empty cart stays empty |
| Store.Account.constructor | src/app/api/register/route.ts:13 | the document `User.create` makes holds exactly the given record: name, email, password, role, cart, address and phone |
| Store.Account.SetQuantity | src/app/api/cart/route.ts:48-53 | the account's cart becomes add-or-set of the old cart |
| Store.Account.RemoveItem | src/app/api/cart/route.ts:70 | the account's cart becomes the old cart without the item's entries |
| Store.Account.ClearCart | src/app/api/orders/route.ts:65 | the account's cart becomes empty |
| Cart.FirstIndex | src/app/api/cart/route.ts:48 | `cart.find` picks the first entry for the item: no earlier entry matches, and the index is in range iff the item is in the cart |
| Cart.AddOrSet | src/app/api/cart/route.ts:48-53 | if the item is in the cart, only its first entry's quantity changes and the length stays the same; otherwise one entry is appended; either way the item is then in the cart |
| Cart.RemoveAll | src/app/api/cart/route.ts:70 | no entry for the item remains, every other entry is kept with all its copies, and the order is preserved |
| Cart.RemoveAbsent | src/app/api/cart/route.ts:70 | removing an item that is not in the cart leaves the cart unchanged |
| Cart.RemoveOne | src/app/api/cart/route.ts:70 | in a cart without duplicate items, remove shortens the cart by one iff the item was in it |
| Cart.RemoveTwice | src/app/api/cart/route.ts:70 | repeating a DELETE for the same item changes nothing the second time |
| Cart.AddOrSetKeepsNoDuplicates | src/app/api/cart/route.ts:48-53 | add-or-set preserves "no duplicate item entries" |
| Cart.AddOrSetTwice | src/app/api/cart/route.ts:48-53 | setting the same item twice gives the same cart as setting it once to the second quantity, with no added entry |
| Cart.Populate | src/app/api/cart/route.ts:12-20 | one populated line per entry, with the same quantity; the item is the catalog item with that id, or absent iff the catalog has none |
| Cart.PopulateAppend | src/app/api/cart/route.ts:12-20 | populating a concatenation is the concatenation of the populated parts |
| Pricing.LineTotal | src/app/api/checkout/route.ts:37 | definition of a line's contribution: the item's price (0 when the item is missing) times the quantity. The promises built on it are `Pricing.MissingItemCountsZero`, `Pricing.TotalNonNegative` and `Pricing.SetQuantityTotal` |
| Pricing.Total | src/app/api/checkout/route.ts:36-39 | definition of the `reduce` left fold of line totals from 0, also used at src/app/api/orders/route.ts:45-48. Its properties are `Pricing.TotalAppend`, `Pricing.TotalSingle`, `Pricing.MissingItemCountsZero` and `Pricing.TotalNonNegative` |
| Pricing.CartTotal | src/app/api/checkout/route.ts:26-39 | definition of a stored cart's total: the total of the cart populated against the current catalog. Its properties are `Pricing.SetQuantityTotal` and `Pricing.AddItemTotal` |
| Pricing.Paise | src/app/api/checkout/route.ts:46 | definition of the gateway amount, the rupee total × 100. `CheckoutRoute.Post` and `OrdersRoute.CheckoutThenConfirm` state that it is what is sent |
| Pricing.TotalAppend | src/app/api/checkout/route.ts:36-39 | the total of a concatenation is the sum of the totals |
| Pricing.TotalSingle | src/app/api/checkout/route.ts:36-39 | the total of a single line is that line's total |
| Pricing.MissingItemCountsZero | src/app/api/checkout/route.ts:37 | deleting a line whose item is missing does not change the total |
| Pricing.TotalNonNegative | src/app/api/checkout/route.ts:36-39 | with non-negative prices and quantities, the total is non-negative |
| Pricing.SetQuantityTotal | src/app/api/cart/route.ts:48-50 | overwriting a quantity moves the cart total by exactly the difference between the new and old line totals |
| Pricing.AddItemTotal | src/app/api/cart/route.ts:51-53 | adding a new item grows the cart total by that item's line total |
| Pricing.ExampleTotal | src/app/api/checkout/route.ts:36-39 | two portions at ₹100 and one at ₹50 total ₹250 |
| CartRoute.GetPopulatedCart | src/app/api/cart/route.ts:9-22 | null iff there is no id or no such account; otherwise one line per cart entry, with its quantity and its catalog item or null |
| CartRoute.Get | src/app/api/cart/route.ts:24-35 | 401 without a session, 404 "User not found" when the account is missing, otherwise the populated cart |
| CartRoute.Post | src/app/api/cart/route.ts:37-57 | 401 without a user id. 400 when itemId or quantity is falsy, with the cart untouched. 500 when the account is missing. Otherwise the cart becomes add-or-set of the old cart, and the answer is that cart populated. Only the caller's cart is in the frame, and the store invariant is kept |
| CartRoute.Delete | src/app/api/cart/route.ts:59-74 | 401 without a user id. 400 when itemId is falsy, with the cart untouched. 500 when the account is missing. Otherwise every entry for the item is removed, and the answer is the cart populated. Only the caller's cart is in the frame, and the store invariant is kept |
| CartRoute.NonZeroQuantityStored | src/app/api/cart/route.ts:44-53 | a truthy item id with any quantity other than 0, negative ones included, passes the guard, and the cart then holds exactly that quantity for the item |
| CartRoute.NegativeQuantityPassesGuard | src/app/api/cart/route.ts:44 | a quantity of -1 passes the falsy-field guard and is stored as given |
| CheckoutRoute.RequestFor | src/app/api/checkout/route.ts:45-49 | the gateway request is in INR with automatic capture, and its amount is the checkout total in paise. `CheckoutRoute.Post` states that this request is the one sent |
| CheckoutRoute.Post | src/app/api/checkout/route.ts:14-58 | 401 without a user id; 400 "Cart is empty" when the account is missing or its cart is empty; otherwise the gateway is asked for the cart total in paise; its order and that total are returned, or 500 when the gateway fails |
| OrdersRoute.PayloadDeterminesIds | src/app/api/orders/route.ts:19-25 | when neither order id contains the separator, equal signed payloads mean equal rendered order ids and equal rendered payment ids. Rendering does not tell an absent id from the text "undefined", so one signature covers both |
| OrdersRoute.SignedPayload | src/app/api/orders/route.ts:19 | definition of the payload: the order id, the separator character and the payment id, concatenated, where an absent field is rendered "undefined". Its property is `OrdersRoute.PayloadDeterminesIds` |
| OrdersRoute.SignatureMatches | src/app/api/orders/route.ts:20-25 | definition of the gate: the supplied signature equals the HMAC of the signed payload under the server secret. `OrdersRoute.PlaceOutcome` and `OrdersRoute.Post` state that a mismatch is refused with 400 and changes nothing |
| OrdersRoute.LineFieldsOf | src/app/api/orders/route.ts:53-56 | `user.cart.map(...)` gives one line per cart entry, with its item and quantity |
| OrdersRoute.CartCopyRoundTrip | src/app/api/orders/route.ts:53-56 | the order lines built from the copied cart pass validation and equal the cart entries |
| OrdersRoute.OrderFieldsFor | src/app/api/orders/route.ts:51-62 | definition of the fields handed to `Order.create`: the user, the copied cart, the total, "Pending" and the payment id. `OrdersRoute.PlaceOutcome` states the order the schema builds from them |
| OrdersRoute.CartOf | src/app/api/orders/route.ts:30 | definition of the cart `User.findById` loads: present iff the session's user id names an account. `OrdersRoute.Post` states what placement does with it |
| OrdersRoute.PlaceOutcome | src/app/api/orders/route.ts:10-68 | 401 without a user id; 400 "Payment verification failed" on a signature mismatch; 400 "Cart is empty"; 500 when the payment id is falsy; otherwise "Order placed successfully" with an order that holds the caller, the cart as its lines, the cart total, Pending and the payment id |
| OrdersRoute.Post | src/app/api/orders/route.ts:10-69 | the response is `PlaceOutcome` of the signature check and the cart before the call. On success the order is appended and the caller's cart becomes empty. On failure neither the orders nor the cart change. Only the order list and the caller's cart are in the frame, and ids stay unique |
| OrdersRoute.ReplayAtOnce | src/app/api/orders/route.ts:31-33 | after a successful confirmation, the same confirmation sent again at once is refused with "Cart is empty". Only the first order is stored and the cart stays empty |
| OrdersRoute.OwnOrders | src/app/api/orders/route.ts:79 | `find({ user })` keeps exactly the caller's orders, each as often as stored, in stored order |
| OrdersRoute.InsertNewestFirst | src/app/api/orders/route.ts:80 | inserting an order adds exactly that order to the multiset |
| OrdersRoute.InsertKeepsNewestFirst | src/app/api/orders/route.ts:80 | inserting into a newest-first list keeps it newest first |
| OrdersRoute.NewestFirst | src/app/api/orders/route.ts:79-81 | the sorted list is a permutation of its input, ordered by createdAt descending |
| OrdersRoute.OnlyOwnListed | src/app/api/orders/route.ts:79-81 | every listed order belongs to the caller |
| OrdersRoute.PopulateOrder | src/app/api/orders/route.ts:84-89 | definition of one order with each line's item looked up, every other field unchanged. `Cart.Populate` states the per-line lookup, and `OrdersRoute.PopulateOrders` states that the loops compute it for every order |
| OrdersRoute.PopulateOrders | src/app/api/orders/route.ts:84-89 | the nested loops produce, for each order in turn, that order with every line's item resolved against the catalog |
| OrdersRoute.Get | src/app/api/orders/route.ts:71-92 | 401 without a user id; otherwise exactly the caller's orders, newest first, each populated |
| OrdersRoute.CheckoutThenConfirm | src/app/api/orders/route.ts:45-57 | when checkout and confirmation both succeed with no change between them, the gateway amount is 100 × the recorded order total, and the two totals agree |
| OrdersRoute.RepricedBetweenPhases | src/app/api/orders/route.ts:45-48 | when a price rises between checkout and confirmation, the gateway is asked for ₹200 but the order records ₹240 |
| OrdersRoute.ReplayAfterRefill | src/app/api/orders/route.ts:19-27 | a successful confirmation, then a cart POST, then the same signed confirmation again: both confirmations succeed, two orders are appended, and both carry the same payment id |
| ItemsRoute.Get | src/app/api/items/route.ts:7-11 | definition of the listing: every catalog item, in stored order. Its partner is `ItemsRoute.CreateThenList` |
| ItemsRoute.NameTaken | src/app/api/items/route.ts:25 | definition of `Item.findOne({ name })` finding a document, by exact name. `ItemsRoute.Post` states that a taken name is refused |
| ItemsRoute.Post | src/app/api/items/route.ts:13-30 | 401 for a non-admin; 400 "All fields required" when name, price or image is falsy; 400 "Item already exists" when the name is taken; otherwise a 201 with the new item appended to the catalog; nothing changes on an error; item ids stay distinct and unique names stay unique |
| ItemsRoute.CreateThenList | src/app/api/items/route.ts:7-29 | a GET after a successful POST lists the created item last, after every item listed before. A refused POST leaves the listing as it was |
| RegisterRoute.RegistrationFields | src/app/api/register/route.ts:13 | under the user schema, the create call succeeds iff name, email and the hash are non-empty. It then stores exactly that name and email, the hash as the password, `!!isAdmin` as the role, an empty cart and no address or phone |
| RegisterRoute.Post | src/app/api/register/route.ts:6-22 | 400 "User exists" when the email is taken; 500 when name, email or the hash is empty; otherwise a new account stored under a new id, with the hash as password and `!!isAdmin` as role, and a body without the password |
| Store.Db.EmailTaken | src/app/api/register/route.ts:10 | definition of `User.findOne({ email })` finding a document. `RegisterRoute.Post` states that a taken email is refused with 400 |
| Store.Db.Valid | src/models/User.ts:15 | definition of the store invariant: distinct item ids, distinct order ids, one document per account, and the unique email index. The handlers that change the store state that they keep it |
| Dashboard.AllowedStatusesAreSchemaStatuses | src/app/admin/dashboard/page.tsx:31-36 | the selector offers exactly the four statuses the order schema accepts |
| Dashboard.Contains | src/app/admin/dashboard/page.tsx:69-72 | definition of the case-insensitive `toLowerCase().includes(...)` test behind the text filters. `Js.Lower` and `Js.IncludesAt` state what it means character by character, and `Dashboard.FilteredOrders` states the filters built on it |
| Dashboard.StatusMatch | src/app/admin/dashboard/page.tsx:65 | definition of the status test: the filter is "All" or equals the order's status |
| Dashboard.UserMatch | src/app/admin/dashboard/page.tsx:68-72 | definition of the user search: the user exists, and its lower-cased name or email includes the lower-cased query |
| Dashboard.StartMatch | src/app/admin/dashboard/page.tsx:76 | definition of the start bound: no start date, or createdAt at or after it |
| Dashboard.EndMatch | src/app/admin/dashboard/page.tsx:77 | definition of the end bound: no end date, or createdAt at or before 23:59:59 of that day |
| Dashboard.ItemMatch | src/app/admin/dashboard/page.tsx:80-85 | definition of the item test: an empty query, or some line whose item exists and whose lower-cased name includes the query |
| Dashboard.PaymentIdMatch | src/app/admin/dashboard/page.tsx:88-90 | definition of the payment id test: an empty query, or the lower-cased payment id includes it |
| Dashboard.OrderIdMatch | src/app/admin/dashboard/page.tsx:93-95 | definition of the order id test: an empty query, or the lower-cased order id includes it |
| Dashboard.Keep | src/app/admin/dashboard/page.tsx:97-105 | definition of the filter callback: the conjunction of the seven tests, with the user search applying only to a non-empty query. `Dashboard.FilteredOrders` states what the filter keeps |
| Dashboard.FilteredOrders | src/app/admin/dashboard/page.tsx:63-106 | an order is listed iff it is fetched and passes all seven tests (status; user search on name or email; start date; end date up to 23:59:59 of that day; item name; payment id; order id); the list is a subsequence of the fetched orders; a status filter other than "All" lists only that status; a non-empty search lists only orders whose user's name or email contains it, case-insensitively |
| Dashboard.NoCriteriaKeepsAll | src/app/admin/dashboard/page.tsx:65-95 | with "All" and every field empty, the list equals the fetched orders |
| Dashboard.NarrowingKeepsSubsequence | src/app/admin/dashboard/page.tsx:97-105 | setting more filter controls gives a subsequence of the previous list |
| Dashboard.WithStatus | src/app/admin/dashboard/page.tsx:242-246 | the length is unchanged; orders with the id get the new status; nothing but the status changes on any order |
| Dashboard.WithStatusAbsent | src/app/admin/dashboard/page.tsx:243-245 | an update for an id that is not listed changes nothing |
| Dashboard.WithStatusLastWins | src/app/admin/dashboard/page.tsx:242-246 | of two status updates to the same order, the later one decides |
| Dashboard.DashboardPage.constructor | src/app/admin/dashboard/page.tsx:20-29 | the page opens with no orders, "All" and every filter field empty |
| Dashboard.DashboardPage.Visible | src/app/admin/dashboard/page.tsx:63 | the table shows exactly the fetched orders that pass the current filter, as a subsequence of the fetched list |
| Dashboard.DashboardPage.OnOrdersLoaded | src/app/admin/dashboard/page.tsx:54 | the fetched list replaces the orders |
| Dashboard.DashboardPage.OnCriteriaChange | src/app/admin/dashboard/page.tsx:123-126 | a control change replaces the criteria |
| Dashboard.DashboardPage.OnStatusChange | src/app/admin/dashboard/page.tsx:233-249 | an OK PATCH applies the status update; a failed one leaves the orders unchanged; the length never changes |
| MenuPage.WithoutItem | src/app/admin/menu/page.tsx:64 | no item with the id remains, every other item is kept with all its copies, and the order is preserved |
| MenuPage.ReplaceItem | src/app/admin/menu/page.tsx:75-77 | the length is unchanged; every item with the saved id becomes the saved item; every other item is unchanged |
| MenuPage.ReplaceAbsent | src/app/admin/menu/page.tsx:75-77 | saving an item that is not listed leaves the list unchanged |
| MenuPage.ReplaceKeepsIds | src/app/admin/menu/page.tsx:75-77 | replacing keeps the id at every position, so distinct ids stay distinct |
| MenuPage.DeleteAfterEdit | src/app/admin/menu/page.tsx:64 | deleting after an edit-save gives the same list as deleting without it |
| MenuPage.DeleteCount | src/app/admin/menu/page.tsx:64 | with distinct ids, delete shortens the list by one iff the id was listed |
| MenuPage.AdminMenu.constructor | src/app/admin/menu/page.tsx:21-24 | the page opens with no items and no row in edit mode |
| MenuPage.AdminMenu.OnItemsLoaded | src/app/admin/menu/page.tsx:42 | the fetched catalog replaces the list |
| MenuPage.AdminMenu.HandleDelete | src/app/admin/menu/page.tsx:59-68 | only a confirmed delete with an OK response removes the item; otherwise the list is unchanged |
| MenuPage.AdminMenu.IsEditing | src/app/admin/menu/page.tsx:103 | definition of the `editingId === item._id` test that shows a row's edit form. `MenuPage.AdminMenu.HandleEdit` and `MenuPage.AdminMenu.HandleEditCancel` state when it holds |
| MenuPage.AdminMenu.HandleEdit | src/app/admin/menu/page.tsx:70-72 | the edited item's row enters edit mode |
| MenuPage.AdminMenu.HandleEditSave | src/app/admin/menu/page.tsx:74-79 | the saved item replaces the items with its id, and edit mode ends |
| MenuPage.AdminMenu.HandleEditCancel | src/app/admin/menu/page.tsx:81-83 | edit mode ends |
| MenuPage.AdminMenu.OnAdd | src/app/admin/menu/page.tsx:89 | the new item is appended at the end, so the length grows by one |
| CartContext.QuantitySum | src/contexts/CartContext.tsx:34-37 | definition of `cart.reduce((sum, c) => sum + c.quantity, 0)`. Its properties are `CartContext.QuantitySumAppend`, `CartContext.BadgeIgnoresCatalog` and `CartContext.BadgeAfterAddOrSet` |
| CartContext.QuantitySumAppend | src/contexts/CartContext.tsx:34-37 | the portion count of a concatenation is the sum of the counts |
| CartContext.CartQuantityAppend | src/contexts/CartContext.tsx:34-37 | the stored-cart portion count of a concatenation is the sum of the counts |
| CartContext.BadgeIgnoresCatalog | src/contexts/CartContext.tsx:34-37 | the badge of a populated cart equals the stored cart's portion count, whether or not its items still exist |
| CartContext.BadgeAfterAddOrSet | src/contexts/CartContext.tsx:34-37 | after add-or-set, the count grows by the quantity for a new item, or by the new quantity minus the old one for an existing item |
| CartContext.FetchOf | src/contexts/CartContext.tsx:30-32 | definition of how the client sees the cart response: OK carries the lines, anything else is not OK. The promise built on it is `CartContext.RefreshFromServer` |
| CartContext.CartProvider.constructor | src/contexts/CartContext.tsx:22 | the count starts at 0 |
| CartContext.CartProvider.RefreshCart | src/contexts/CartContext.tsx:25-40 | with no session user the count is 0; on an OK response it is the sum of the quantities; on any other response it is unchanged |
| CartContext.CartProvider.OnSessionChange | src/contexts/CartContext.tsx:43-50 | any status other than authenticated resets the count to 0; an authenticated status refreshes it |
| CartContext.RefreshFromServer | src/contexts/CartContext.tsx:30-38 | after a refresh against the cart endpoint, the count of a signed-in account equals the portions stored in its cart |

## Left out

- I/O is not modelled: the database connection, request parsing, JSON encoding, `console.log` and redirects. Each handler runs as one atomic step on the store, so a race between two concurrent requests is outside the model. One example is two confirmations racing before the cart is cleared.
- Floating-point numbers are out: prices, quantities and totals are integers, so NaN, fractional rupees and rounding in `total * 100` are out.
- Dates are instants in milliseconds. Parsing the date fields is out: a date-only start parses as UTC, the `T23:59:59` end as local time, and an invalid date compares false.
- `toLowerCase` is modelled on ASCII letters only; Unicode case mapping is out.
- HMAC-SHA256 (RFC 2104 with SHA-256), bcrypt and the payment gateway client are function parameters, not implementations. The comparison of the signature as a string equality is modelled.
- ObjectId casting is out: an id that is not a valid ObjectId makes `findById` throw. Ids are plain strings.
- The session user's id is taken to be non-empty when present.
- CartRoute.Post: `c.item.toString() === itemId` is modelled as string equality on ids as the store prints them. Three inputs behave otherwise in the source and are out. A non-string `itemId` never matches. An upper-case spelling of a stored id (`665F…` for `665f…`) does not match the lower-case `toString()`, but it is cast to the same ObjectId on push, so a second entry for the item is saved. A string that is not an ObjectId (`"abc"`) makes `user.save()` throw, and the answer is 500, where the model answers with a stored dangling entry.
- RegisterRoute.Post: name, email and password are always strings in the model. A missing field is out: the email query would then match any account, and `bcrypt.hash` would throw.
- OrdersRoute.Get: orders with equal `createdAt` come out in the model's insertion order. The store does not fix that order; the stated sortedness and permutation hold for any tie order.
- OrdersRoute.Get: the handler overwrites each line's item in the fetched documents in place. The model builds new values instead. The response is the same.
- CartContext.CartProvider: the raw `setCount` setter exported by the context is not modelled, because it has no behaviour beyond assignment.
- Dashboard: the page's redirects for non-admins, and its loading and error flags, are UI flow. Only the order list, the filter and the status update are modelled.
- MenuPage: the same applies. The separately routed item edit and delete handlers, and the admin order listing handler, are not part of this model. The pages are modelled as the client-side list updates they perform.
- The profile, login and authentication handlers, and the shop-facing pages, are not part of this model. The cart page's own total is `Pricing.CartTotal` over the same populated lines.
