# Storefront model

A Dafny model of the business logic of a small online shop: a Next.js storefront
whose data lives in a hosted relational store. Here the store is in memory:
- products (name, slug, price, stock, category, description, image),
- cart rows `(id, user, product, quantity)`,
- orders and order items,
- users with an optional role.

The model covers these parts of the shop, each with the store writes it makes and
the values it computes from the store:
- the server-side stock check and order placement;
- the client-side checkout form;
- the two add-to-cart buttons and the cart line editor;
- the admin stock editor and order-status editor, the dashboard's order count,
  revenue and pending count, the customers page's statistics, list pagination and
  badges;
- the catalogue's URL-parameter handling: filters, search, cart quantities, and the
  largest listed price that the page computes and passes to the filter panel, which
  never reads it (its slider's upper end is the literal 1000);
- the product form's slug generation and save;
- the hero carousel's index arithmetic, the active-link rules of the sidebar, navbar
  and header, and the admin access gate.

The rest of what the pages read is listed under "Left out".

Layout, one module per source file:
- `Common` holds optional values, whitespace and ASCII case helpers,
  `parseInt`/`toString` on integers (`JsNumber` has a `NaN` case), `||` fallbacks
  and `Max`.
- `Store` holds the row types, the `Tables` snapshot and the class `Db`. `Db` has
  one field per table and a `nextId` counter for store-assigned ids.
- `UrlParams` holds the query-parameter map.

Code that works by updating the store or component state step by step is written
as methods:
- `CheckoutActions.ProcessOrder`,
- `CheckoutForm.Form.HandleSubmit`,
- `CartItems.List.UpdateQuantity`,
- `ProductFilters.Filters.ApplyFilters`,
- `HeroCarousel.Carousel.Next`,
- and the others listed below.

Each of these methods modifies a `Db` or the fields of its component class. It is
proved equal to a pure function of the state it started from. The properties the
shop promises are lemmas about those functions.

Store calls that may fail are given the failure as a parameter: a `Fault` value,
an optional error message, or a flag such as the admin gate's `roleReadFails` or
the add-to-cart buttons' `readFails`. A `.single()` read whose `{ error }` is
dropped is modelled as finding no row when that flag is set. Thrown exceptions are
covered only where "## Left out" says so. The session is a parameter too: the
signed-in user id, or none. Number parsing by `parseFloat` is a parameter of the catalogue query.

## Model

| member | source | states |
|---|---|---|
| StockActions.CheckStockAvailability | lib/actions/stock-actions.ts:9-53 | A read error gives "Failed to check stock: " plus the message. Otherwise the result is `true` exactly when no line is out of stock. When some are, the error is "Some items are out of stock: " followed by the descriptions of exactly the failing lines, in cart order, joined by ", ". |
| StockActions.StockMap | lib/actions/stock-actions.ts:26-32 | The lookup has a key exactly for the ids of the fetched rows. |
| StockActions.OutOfStockItems | lib/actions/stock-actions.ts:35-38 | A line is kept exactly when it is in the cart and its product is missing or has less stock than requested. |
| StockActions.OutOfStockItemsAppend | lib/actions/stock-actions.ts:35-38 | The failing lines of two cart parts joined are the failing lines of each part, in order. |
| StockActions.OutOfStockItemsSingle | lib/actions/stock-actions.ts:35-38 | A single line is kept exactly when it fails; with `OutOfStockItemsAppend` the result is the in-order filter of the cart. |
| StockActions.OutOfStockItemsCount | lib/actions/stock-actions.ts:35-38 | Duplicate lines are kept: a failing line occurs in the result as often as in the cart, a passing one not at all. |
| StockActions.DescribeNamesProduct | lib/actions/stock-actions.ts:42-46 | A missing product reads "Unknown product". A known one starts with its name and " (requested: ". |
| StockActions.DescribeFormat | lib/actions/stock-actions.ts:42-46 | A known product is reported as `name (requested: q, available: s)`, and both numerals read back as the quantity and the stock. |
| StockActions.Describe | lib/actions/stock-actions.ts:42-46 | The text of one failing line; `DescribeNamesProduct` and `DescribeFormat` state it. |
| StockActions.OutOfStock | lib/actions/stock-actions.ts:35-38 | A line fails when its product is missing or has less stock than requested; `OutOfStockItems` and `StockCheckAgainstStore` use it. |
| StockActions.DescriptionAt | lib/actions/stock-actions.ts:41-46 | The report at each position is that of the failing line at the same position, so the reports follow cart order. |
| StockActions.StockMapAgreesWithStore | lib/actions/stock-actions.ts:16-32 | Every entry of the lookup carries its product's stored name and stock. |
| StockActions.StockCheckAgainstStore | lib/actions/stock-actions.ts:26-38 | Against the store the query reads from, the check passes exactly when every cart line names an existing product whose stock covers the line's quantity. |
| StockActions.EnoughStockPasses | lib/actions/stock-actions.ts:37 | Example: a stock of 5 and a request for 3 pass. The general case is `StockCheckAgainstStore`. |
| StockActions.ExactStockPasses | lib/actions/stock-actions.ts:37 | Example of the boundary: a request equal to the stock passes, because the comparison is strict. The general case is `StockCheckAgainstStore`. |
| StockActions.LampDescription | lib/actions/stock-actions.ts:45-46 | Example: a lamp with 2 in stock, asked for 3, is reported as `Lamp (requested: 3, available: 2)`. The general format is `DescribeFormat`. |
| StockActions.ShortStockIsReported | lib/actions/stock-actions.ts:40-49 | A stock of 2 and a request for 3 fail with the itemised message. |
| StockActions.MissingProductIsUnknown | lib/actions/stock-actions.ts:36-37 | A product the query did not return fails and is reported as "Unknown product". |
| StockActions.DuplicateLinesCheckedSeparately | lib/actions/stock-actions.ts:35-38 | Two lines of 3 against a stock of 5 pass: each line is compared with the full stock, not with their sum. |
| CheckoutActions.NewOrder | lib/actions/checkout-actions.ts:22-31 | The order row has the new id, the caller's user, total, address and method, status "processing", payment "paid" and no tracking number or notes. |
| CheckoutActions.PriceAtPurchase | lib/actions/checkout-actions.ts:62-74 | The stored price of the product, or 0 when the product was not returned. |
| CheckoutActions.PricedItems | lib/actions/checkout-actions.ts:43-48 | One item per line, in order, with the new order id, the line's product and quantity, and the price at purchase. |
| CheckoutActions.FillPrices | lib/actions/checkout-actions.ts:43-75 | The loop builds exactly the priced items. |
| CheckoutActions.Decrement | lib/actions/checkout-actions.ts:98-114 | Only the line's product changes, and its stock becomes `max(0, stock - quantity)`. A missing product leaves the table unchanged. |
| CheckoutActions.StockLoop | lib/actions/checkout-actions.ts:87-120 | The lines are applied in order. A stock read or write fault at line k stops the loop with the lines before k already applied, and names the product in its error. |
| CheckoutActions.UpdateStock | lib/actions/checkout-actions.ts:87-120 | The `for` loop changes only the products table, and leaves exactly what the stock loop specifies. |
| CheckoutActions.ProcessOrder | lib/actions/checkout-actions.ts:9-140 | The sequence of store writes leaves the store and the result that `PlaceOrder` gives for the same starting store. |
| CheckoutActions.PlaceOrder | lib/actions/checkout-actions.ts:9-140 | The whole action on the store before the call: a failure always carries a non-empty error, and users are never written. The lemmas below state the rest. |
| CheckoutActions.Caught | lib/actions/checkout-actions.ts:136-139 | The catch block's error text is never empty. |
| CheckoutActions.PlaceOrderKeepsWellFormed | lib/actions/checkout-actions.ts:9-140 | The action keeps every product, cart and order id below the id counter, whichever step fails. |
| CheckoutActions.OrderRowPersists | lib/actions/checkout-actions.ts:22-31 | When the order insert succeeds, exactly one order row is appended, with the caller's data, "processing" and "paid". It stays, whatever fails later. |
| CheckoutActions.FailedInsertChangesNothing | lib/actions/checkout-actions.ts:35-38 | A failed order insert leaves the store unchanged and gives the error. |
| CheckoutActions.PlacedOrderItems | lib/actions/checkout-actions.ts:43-83 | On success, one item per line references the new order id, with the line's product and quantity and the price read before the stock changed. The earlier items are kept. |
| CheckoutActions.StockLoopKeepsStockNonNegative | lib/actions/checkout-actions.ts:106-114 | The loop never makes a stock negative. |
| CheckoutActions.StockLoopLeavesOthers | lib/actions/checkout-actions.ts:111-114 | A product named by no line keeps its row. |
| CheckoutActions.UntouchedProductsKeepStock | lib/actions/checkout-actions.ts:87-114 | Whatever the outcome, products not in the order keep their row. |
| CheckoutActions.PlaceOrderKeepsStockNonNegative | lib/actions/checkout-actions.ts:87-114 | Placing an order never makes a stock negative. |
| CheckoutActions.SameProductTwice | lib/actions/checkout-actions.ts:87-106 | A product on two lines is decremented once per line, each time from the stock just read. The result is `max(0, stock - a - b)`. |
| CheckoutActions.SingleLineStock | lib/actions/checkout-actions.ts:98-114 | Without faults, a product named by one line only ends at `max(0, stock - quantity)`. |
| CheckoutActions.NoFaultCompletes | lib/actions/checkout-actions.ts:87-120 | Without store faults, the loop over existing products completes without error. |
| CheckoutActions.OtherCartsUntouched | lib/actions/checkout-actions.ts:124-128 | Cart rows of other users are neither removed nor added. |
| CheckoutActions.CartClearedOnSuccess | lib/actions/checkout-actions.ts:124-135 | On success no cart row of the user remains. A cart-delete error is only logged: the result is still the success, with the cart as it was. |
| CheckoutActions.StockLoopIgnoresOtherFaults | lib/actions/checkout-actions.ts:87-120 | The loop reacts only to stock faults. |
| CheckoutActions.OrderOfThreeFromStockOfFive | lib/actions/checkout-actions.ts:106-114 | Example: with a stock of 5, an order for 3 is placed and leaves a stock of 2. The general case is `SingleLineStock`. |
| CheckoutActions.StockReadFailureKeepsEarlierWrites | lib/actions/checkout-actions.ts:89-103 | A stock read error at line k returns the error and undoes nothing: the order, its items and the first k decrements stay, and the cart is kept. |
| CheckoutActions.StockLoopPrefix | lib/actions/checkout-actions.ts:89-103 | A read fault at line k leaves exactly the effect of the lines before k, plus the error naming line k's product. |
| CheckoutForm.InitialForm | components/checkout/checkout-form.tsx:39-48 | The form starts from the profile's name, email, phone and address (or "", also for a null profile), with empty city, country and postal code, and "save info" ticked. |
| CheckoutForm.ShippingAddress | components/checkout/checkout-form.tsx:107 | The stored address starts with the name and the address lines, and ends with the phone line. |
| CheckoutForm.OrderTotal | components/checkout/checkout-form.tsx:98-104 | The stored total is the total the order summary shows for the same lines. |
| CheckoutForm.SaveProfile | components/checkout/checkout-form.tsx:86-95 | Only the user's own row changes: its name, address and phone. An unknown id changes no row. |
| CheckoutForm.ItemRows | components/checkout/checkout-form.tsx:126-135 | One item per cart line, with the new order id, the line's product and quantity, and the cart's price. |
| CheckoutForm.MarkPaid | components/checkout/checkout-form.tsx:143-149 | Only rows with that id become "processing"/"paid". |
| CheckoutForm.SaveStep | components/checkout/checkout-form.tsx:86-95 | The profile save either changes nothing or applies the profile update. |
| CheckoutForm.OrderSteps | components/checkout/checkout-form.tsx:107-152 | The writes never change products or users. A failure carries a non-empty description. |
| CheckoutForm.Submit | components/checkout/checkout-form.tsx:62-167 | The submit never changes product stock, and a failure carries a non-empty description. It navigates only with a profile and a cart prop. A null profile leaves the store unchanged. A missing cart prop writes no order, item or cart change. |
| CheckoutForm.Form.constructor | components/checkout/checkout-form.tsx:26-48 | The form keeps the `profile` and `cartItems` props it is given (either may be absent) and starts as `InitialForm` of the profile, with M-Pesa chosen and not processing. |
| CheckoutForm.Form.HandleSubmit | components/checkout/checkout-form.tsx:62-167 | The store and the outcome are those of `Submit`. The processing flag stays set after navigation and is cleared only on an error. |
| CheckoutForm.WriteOrder | components/checkout/checkout-form.tsx:107-152 | The sequence of writes gives the store and outcome of `OrderSteps`. |
| CheckoutForm.OrderStepsKeepsWellFormed | components/checkout/checkout-form.tsx:107-152 | The order writes keep every product, cart and order id below the id counter. |
| CheckoutForm.IncompleteFormWritesNothing | components/checkout/checkout-form.tsx:66-78 | A form missing the name, email, phone or address writes nothing and shows "Missing information". |
| CheckoutForm.Complete | components/checkout/checkout-form.tsx:66-71 | Name, email, phone and address are non-empty; `MissingInformationExactlyWhenIncomplete` states its role. |
| CheckoutForm.MissingInformationExactlyWhenIncomplete | components/checkout/checkout-form.tsx:66-78 | The submit stops at "Missing information" exactly when the name, email, phone or address is empty. City, country and postal code never make it stop there. |
| CheckoutForm.SubmittedOrder | components/checkout/checkout-form.tsx:110-149 | On success exactly one order is appended, with the total and the shipping address. It is "processing"/"paid", or still "pending" when the ignored status update failed. |
| CheckoutForm.SubmittedItems | components/checkout/checkout-form.tsx:126-137 | On success, one item per cart line is appended after the earlier items, with the cart price and quantity and the new order id. |
| CheckoutForm.FailedInsertSkipsLaterWrites | components/checkout/checkout-form.tsx:123-166 | A failed order or items insert skips the status update and the cart clear. The order stays "pending" when only the items insert failed. |
| CheckoutForm.NullProfileWritesNothing | components/checkout/checkout-form.tsx:86-121 | With a null profile (app/checkout/page.tsx:31-35 gives null when there is no row), `profile.id` throws before any write is sent. The store is unchanged, and a complete form ends in the error toast. |
| CheckoutForm.MountedWithoutCartNeverOrders | components/checkout/checkout-form.tsx:86-100 | Without the `cartItems` prop, no submit places an order. The order, item and cart tables and the id counter stay, the profile is still saved, and a complete form with a profile ends in the `reduce` TypeError toast. |
| CheckoutForm.PassedCartPlacesOrder | components/checkout/checkout-form.tsx:98-158 | Given the cart, a complete submit with a profile and no store error appends the order at the next id, for the profile's user and with the computed total, and navigates to its success page. |
| CheckoutForm.SubmitClearsOwnCart | components/checkout/checkout-form.tsx:150-152 | On success no cart row of the user remains, unless the ignored delete failed. Rows of other users stay. |
| CheckoutForm.ProfileSavedBeforeOrder | components/checkout/checkout-form.tsx:86-95 | With "save info", the profile is updated before the order exists, and stays even when the order insert then fails. |
| OrderSummary.Subtotal | components/checkout/order-summary.tsx:23-25 | The empty cart has subtotal 0. |
| OrderSummary.Shipping | components/checkout/order-summary.tsx:28 | Shipping is free exactly from a subtotal of 100 on, and 10 below it. |
| OrderSummary.Tax | components/checkout/order-summary.tsx:31 | For a non-negative subtotal, the tax lies between 0 and the subtotal. |
| OrderSummary.Summarize | components/checkout/order-summary.tsx:23-34 | The total is subtotal plus shipping plus tax, with tax at 10% and the 100 threshold for shipping. |
| OrderSummary.SubtotalAppend | components/checkout/order-summary.tsx:23-25 | The subtotal of two carts put together is the sum of their subtotals. |
| OrderSummary.SubtotalNonNegative | components/checkout/order-summary.tsx:23-25 | Non-negative prices and quantities give a non-negative subtotal. |
| OrderSummary.SingleLineSubtotal | components/checkout/order-summary.tsx:75 | A one-line cart's subtotal is that line's displayed price × quantity. |
| OrderSummary.LineAmount | components/checkout/order-summary.tsx:75 | Price times quantity; `SingleLineSubtotal` and `SubtotalAppend` state it. |
| OrderSummary.TotalAroundThreshold | components/checkout/order-summary.tsx:28-34 | Below 100 the total is 1.1 × subtotal + 10, and from 100 on it is 1.1 × subtotal. |
| OrderSummary.TotalBounds | components/checkout/order-summary.tsx:28-34 | The total lies between 1.1 × subtotal and 1.1 × subtotal + 10. |
| OrderSummary.ThresholdDrop | components/checkout/order-summary.tsx:28 | A cart of 99 costs more in total than a cart of 100. |
| CartSummary.CartTotal | components/cart/cart-summary.tsx:24-33 | The card's total is subtotal plus shipping. Adding the tax gives the checkout total. |
| CartSummary.FreeShippingHint | components/cart/cart-summary.tsx:66-71 | The hint appears exactly below 100, with a positive amount that brings the subtotal to 100. |
| CartSummary.HintMatchesShipping | components/cart/cart-summary.tsx:30-71 | The hint shows exactly when shipping is charged, and adding the hinted amount makes shipping free. |
| CartSummary.AfterClick | components/cart/cart-summary.tsx:35-41 | After a click the flag is set exactly when it was set already or the cart has lines: a disabled button does not fire. |
| CartSummary.ClickLocksButton | components/cart/cart-summary.tsx:35-80 | A click on the enabled button sets the flag and disables the button, so a second click changes nothing: no double checkout. |
| CartSummary.Summary.constructor | components/cart/cart-summary.tsx:14-16 | The card starts with no checkout running. |
| CartSummary.Summary.Click | components/cart/cart-summary.tsx:35-41 | The flag becomes `AfterClick` of the old flag. |
| CartSummary.CheckoutDisabled | components/cart/cart-summary.tsx:77 | The button is disabled while a checkout runs or when the cart is empty; `AfterClick` and `ClickLocksButton` state its effect. |
| CartItems.WithQuantity | components/cart/cart-items.tsx:32-36 | Same length and order. Entries with the id take the new quantity, and every other entry is unchanged. |
| CartItems.Without | components/cart/cart-items.tsx:63-65 | An entry is kept exactly when its id differs. |
| CartItems.SetRowQuantity | components/cart/cart-items.tsx:29 | Only rows with the id change, and only their quantity. |
| CartItems.DeleteRow | components/cart/cart-items.tsx:60 | A row is kept exactly when its id differs. |
| CartItems.EmptyFieldPassesGuardAsWritten | components/cart/cart-items.tsx:21-22 | A cleared field parses to NaN, which the written guard lets through and the corrected guard refuses. |
| CartItems.AcceptsAgreesOnNumbers | components/cart/cart-items.tsx:22 | On numbers the corrected guard is the written `< 1` test. It accepts only quantities of at least 1. |
| CartItems.RemoveAfterUpdate | components/cart/cart-items.tsx:32-65 | Removing an entry after changing its quantity is the same as removing it directly. |
| CartItems.WithoutAppend | components/cart/cart-items.tsx:63-65 | Removal keeps the relative order: it distributes over concatenation. |
| CartItems.WithoutIdempotent | components/cart/cart-items.tsx:63-65 | Removing twice is removing once. |
| CartItems.SetRowQuantityKeepsIds | components/cart/cart-items.tsx:29 | A quantity update keeps the store well formed. |
| CartItems.DeleteRowKeepsIds | components/cart/cart-items.tsx:60 | A delete keeps the store well formed. |
| CartItems.List.constructor | components/cart/cart-items.tsx:18-19 | The list starts as given, with no busy flags. |
| CartItems.List.UpdateQuantity | components/cart/cart-items.tsx:21-52 | A refused quantity changes nothing. Otherwise the store row is updated only when the write takes effect; the local list is updated when the write took effect or returned an ignored error, and is left as it was when the call threw; the line's busy flag ends false in every case. |
| CartItems.List.RemoveItem | components/cart/cart-items.tsx:54-86 | The store row is deleted only when the delete takes effect. The entries with the id leave the local list unless the call threw, and the busy flag ends false in every case. |
| CartAddButton.ExistingLine | components/cart/add-to-cart-button.tsx:42-47 | A line is found only when the read succeeds and the user has exactly one line for the product, and then it is that line. |
| CartAddButton.AddOne | components/cart/add-to-cart-button.tsx:42-61 | Only the cart (and the id counter) changes. |
| Store.SingleLine | components/cart/add-to-cart-button.tsx:41-47 | A `.single()` read finds a row exactly when one row matches, and the row it finds matches. |
| CartAddButton.AddToExistingLine | components/cart/add-to-cart-button.tsx:42-54 | With a line present, its quantity grows by exactly 1 and every other row is unchanged. |
| CartAddButton.AddNewLine | components/cart/add-to-cart-button.tsx:55-61 | Without a line, exactly one row with quantity 1 is appended under a fresh id, whether or not the read reports an error. |
| CartAddButton.CountLinesSetQuantity | components/cart/add-to-cart-button.tsx:48-53 | A quantity change never changes how many lines a user has for a product. |
| CartAddButton.AddKeepsOneLine | components/cart/add-to-cart-button.tsx:42-61 | When the existing-line read succeeds, adding keeps at most one line per user and product. |
| CartAddButton.FailedReadDuplicatesLine | components/cart/add-to-cart-button.tsx:42-61 | When the read reports an error, its error is dropped and the existing line is not found. A second line for the product is inserted, and the one-line-per-product shape is lost. |
| CartAddButton.AddLeavesOtherLines | components/cart/add-to-cart-button.tsx:42-61 | Rows of other users or other products stay in the cart. |
| CartAddButton.AddOneKeepsWellFormed | components/cart/add-to-cart-button.tsx:42-61 | Adding keeps every generated id below the counter. |
| CartAddButton.AddOneKeepsUniqueIds | components/cart/add-to-cart-button.tsx:42-61 | Adding keeps cart row ids unique: the update keeps every id, and the insert takes the counter, which is above every id in use. |
| CartAddButton.UpsertTables | components/cart/add-to-cart-button.tsx:42-61 | Reading the user's line and then updating it or inserting a new one gives exactly `AddOne`. |
| CartAddButton.Upsert | components/cart/add-to-cart-button.tsx:42-61 | The store after the write is `AddOne` of the store before it, and it stays well formed. |
| CartAddButton.HandleAdd | components/cart/add-to-cart-button.tsx:24-85 | Without a session it redirects to sign-in with `redirect=/products/<slug>` and changes nothing. With a session, the toast is shown and the upsert, with the read's outcome, is applied unless the write failed. |
| CartAddButton.SignInUrl | components/cart/add-to-cart-button.tsx:37 | The sign-in URL starts with `/auth/signin?redirect=/products/`. |
| CartAddButton.AddedText | components/cart/add-to-cart-button.tsx:71 | The toast text starts with the product name. |
| CartAddButton.Button.constructor | components/cart/add-to-cart-button.tsx:21-22 | The button starts neither loading nor "added". |
| CartAddButton.Button.HandleAddToCart | components/cart/add-to-cart-button.tsx:24-85 | The store and outcome are those of `HandleAdd`. Loading ends false on every path, including the redirect. |
| AddButton.AddToCart | components/add-to-cart-button.tsx:20-86 | Without a session it goes to "/signin" and changes nothing. The "added" toast appears exactly when there is a session and no write error, and only then is the upsert applied, with the read's outcome. An error is reported with a non-empty text. |
| AddButton.EmptyErrorUsesFallback | components/add-to-cart-button.tsx:77-82 | An error with an empty message is reported as "Failed to add item to cart.". |
| AddButton.TwoClicksMakeQuantityTwo | components/add-to-cart-button.tsx:42-66 | Two clicks whose reads and writes succeed, on a product not in the cart leave one new line, with quantity 2. |
| AddButton.Button.constructor | components/add-to-cart-button.tsx:15 | The button starts not loading. |
| AddButton.Button.HandleAddToCart | components/add-to-cart-button.tsx:20-86 | The store and outcome are those of `AddToCart`. Loading ends false on every path. |
| StockManagement.NewStockLevel | components/admin/stock-management.tsx:28-37 | The text is refused exactly when it parses to NaN or a negative number. Otherwise the level is the parsed number. |
| StockManagement.SetStock | components/admin/stock-management.tsx:44-47 | Only the product's stock is set, to exactly the level. Every other product is unchanged. |
| StockManagement.InitialTextRoundTrip | components/admin/stock-management.tsx:24-28 | The field's starting text, the current stock, is accepted as that stock. |
| StockManagement.ZeroAcceptedNegativeRefused | components/admin/stock-management.tsx:30 | "0" is accepted and every negative number is refused. |
| StockManagement.SetIsAbsolute | components/admin/stock-management.tsx:44-47 | The result does not depend on the previous stock, and setting twice is setting once. |
| StockManagement.Editor.constructor | components/admin/stock-management.tsx:24-25 | The field starts as the stock's decimal text. |
| StockManagement.Editor.HandleUpdateStock | components/admin/stock-management.tsx:27-66 | A refused text shows "Invalid quantity" and writes nothing. A store error writes nothing and skips `onUpdate`. A success sets the stock and calls `onUpdate` once. |
| OrderStatusForm.InitialForm | components/admin/order-status-form.tsx:25-30 | The form starts from the order's values, with null tracking number and notes shown as "". |
| OrderStatusForm.WithField | components/admin/order-status-form.tsx:32-34 | Exactly the named field takes the value. |
| OrderStatusForm.Applied | components/admin/order-status-form.tsx:43-52 | The four form columns are written, with empty tracking number and notes as null. Every other column is kept. |
| OrderStatusForm.UpdateOrder | components/admin/order-status-form.tsx:43-52 | Only rows with the order's id change. |
| OrderStatusForm.UntouchedSubmitKeepsOrder | components/admin/order-status-form.tsx:25-52 | Submitting the untouched form writes back the row as it was read, when no column held "". |
| OrderStatusForm.AnyStatusReachable | components/admin/order-status-form.tsx:43-90 | Every offered status can be written from every current status. |
| OrderStatusForm.UpdateIsIdempotent | components/admin/order-status-form.tsx:43-52 | Submitting the same form twice is submitting it once. |
| OrderStatusForm.Editor.constructor | components/admin/order-status-form.tsx:25-30 | The editor starts from `InitialForm` and is not loading. |
| OrderStatusForm.Editor.HandleChange | components/admin/order-status-form.tsx:32-34 | One field of the form state changes. |
| OrderStatusForm.Editor.HandleSubmit | components/admin/order-status-form.tsx:36-71 | A store error writes nothing and is reported. Otherwise the order row is updated. Loading ends false. |
| AdminDashboard.TotalOrders | app/admin/page.tsx:40 | The number of order rows, or 0 without data. |
| AdminDashboard.TotalRevenue | app/admin/page.tsx:41-43 | The sum of the totals, or 0 without data. |
| AdminDashboard.Revenue | app/admin/page.tsx:41-43 | The sum of the order totals; `RevenueAppend`, `RevenueBounds` and `RevenueNonNegative` state it. |
| AdminDashboard.Pending | app/admin/page.tsx:44-45 | The pending count never exceeds the number of orders. |
| AdminDashboard.PendingOrders | app/admin/page.tsx:44-45 | The pending count, or 0 without data. |
| AdminDashboard.CountOrZero | app/admin/page.tsx:132-148 | An absent count shows 0. |
| AdminDashboard.PendingAtMostTotal | app/admin/page.tsx:40-45 | Pending orders are never more than the total. |
| AdminDashboard.PendingExtremes | app/admin/page.tsx:44-45 | All pending gives the total, and none pending gives 0. |
| AdminDashboard.RevenueAppend | app/admin/page.tsx:41-43 | Revenue distributes over concatenation. |
| AdminDashboard.RevenueBounds | app/admin/page.tsx:41-43 | With non-negative totals, revenue is at least every single order's total. |
| AdminDashboard.RevenueNonNegative | app/admin/page.tsx:41-43 | With non-negative totals, revenue is non-negative. |
| AdminCustomers.PageNumber | app/admin/customers/page.tsx:24 | NaN or 0 give page 1, and any other number is taken as is. |
| AdminCustomers.TotalPages | app/admin/customers/page.tsx:80 | The ceiling of count / 10, or 0 when the count is missing or 0. |
| AdminCustomers.PagesAreContiguous | app/admin/customers/page.tsx:37-38 | Each page spans 10 rows, and the next page starts right after. |
| AdminCustomers.EveryRowOnOnePage | app/admin/customers/page.tsx:37-80 | Every row lies on exactly one page, and that page is at most `TotalPages`. |
| AdminCustomers.PageRange | app/admin/customers/page.tsx:24-37 | A page of at least 1 starts at row 0 or later. The page "-1" is taken as is and starts at row -20. |
| AdminCustomers.RangeFrom | app/admin/customers/page.tsx:37 | First row of a page; `PagesAreContiguous`, `EveryRowOnOnePage` and `PageRange` state it. |
| AdminCustomers.RangeTo | app/admin/customers/page.tsx:38 | Last row of a page, inclusive; `PagesAreContiguous` and `EveryRowOnOnePage` state it. |
| AdminCustomers.CustomerOrders | app/admin/customers/page.tsx:49-55 | No customers means no order query. Otherwise the result holds exactly the orders of listed customers. |
| AdminCustomers.Matching | app/admin/customers/page.tsx:49-55 | Exactly the orders of listed customers. |
| AdminCustomers.CustomerStats | app/admin/customers/page.tsx:64-78 | There is an entry exactly for each listed customer, holding the count and the sum of that customer's fetched orders. |
| AdminCustomers.CountFor | app/admin/customers/page.tsx:71-78 | A customer's number of orders; `CustomerStats`, `CountAtMostOrders` and `OtherOrdersIgnored` state it. |
| AdminCustomers.SpentFor | app/admin/customers/page.tsx:71-78 | A customer's summed order totals; `CustomerStats` and `OtherOrdersIgnored` state it. |
| AdminCustomers.NoOrdersNoStats | app/admin/customers/page.tsx:64-68 | A customer without orders keeps count 0 and total 0. |
| AdminCustomers.OtherOrdersIgnored | app/admin/customers/page.tsx:73 | An order of another user changes neither statistic. |
| AdminCustomers.CountAtMostOrders | app/admin/customers/page.tsx:71-78 | A customer's count never exceeds the number of fetched orders. |
| AdminCustomers.FilterKeepsListedStats | app/admin/customers/page.tsx:49-78 | Restricting the query to the listed customers does not change their statistics. |
| AdminCustomers.MatchingKeepsStats | app/admin/customers/page.tsx:49-78 | Dropping the orders of unlisted users does not change a listed customer's statistics. |
| AdminOrders.StatusFilter | app/admin/orders/page.tsx:56-58 | A status filter applies exactly when the parameter is non-empty and not "all". |
| AdminOrders.WithStatus | app/admin/orders/page.tsx:56-58 | Exactly the orders with the status, or all orders without a filter. |
| AdminOrders.AllMeansNoFilter | app/admin/orders/page.tsx:56-58 | "all", "" and a missing parameter list every order. |
| AdminOrders.PageRows | app/admin/orders/page.tsx:61-67 | A page below 1 gets no rows. Otherwise the page holds the filtered rows from `from` on, in order: ten of them, or all that remain. |
| AdminOrders.OrderOnItsPage | app/admin/orders/page.tsx:31-69 | Every order the status filter keeps is shown: the k-th appears at position k mod 10 of page k / 10 + 1, and that page is within the page count. |
| AdminOrders.StatusColor | app/admin/orders/page.tsx:72-87 | The five known statuses get their classes, and exactly the others get gray. |
| AdminOrders.KnownStatusesDistinct | app/admin/orders/page.tsx:72-87 | The five known statuses get five different classes. |
| AdminOrders.Capitalize | app/admin/orders/page.tsx:157-158 | The first character is upper-cased and the rest is kept. |
| AdminOrders.CapitalizeProperties | app/admin/orders/page.tsx:157-158 | Capitalising is idempotent, and a lower-case first letter becomes upper-case. |
| AdminOrders.ShortId | app/admin/orders/page.tsx:144 | The first 8 characters of the id, or all of it when shorter. |
| AdminProducts.QueryConstraints | app/admin/products/page.tsx:48-54 | The search and category constraints are present exactly when their parameters are non-empty, and carry them. |
| AdminProducts.CategoryConstraint | app/admin/products/page.tsx:48-54 | No category lists every product, and a category lists exactly its products. |
| AdminProducts.ProductsPagination | app/admin/products/page.tsx:32-65 | Example: page 1 spans rows 0 to 9. An absent count gives 0 pages, and 25 rows give 3 pages. The page helpers are shared with the customers page, where `AdminCustomers.PagesAreContiguous`, `AdminCustomers.EveryRowOnOnePage` and `AdminCustomers.TotalPages` state them in general. |
| AdminProducts.CategoryLabel | app/admin/products/page.tsx:149 | A missing category name shows "Uncategorized". |
| AdminProducts.StockBadge | app/admin/products/page.tsx:153-164 | "In Stock (n)" for a positive stock, otherwise "Out of Stock". |
| AdminProducts.BadgeIffPositive | app/admin/products/page.tsx:153-164 | The badge reads "In Stock" exactly when the stock is positive. |
| TopSelling.MaxQuantity | components/admin/top-selling-products.tsx:9-12 | 0 for an empty list. Otherwise a quantity of the list that is at least every quantity. |
| TopSelling.EmptyText | components/admin/top-selling-products.tsx:16-19 | The empty list, and only it, shows "No product data available". |
| TopSelling.PercentageBounds | components/admin/top-selling-products.tsx:9-24 | With non-negative quantities every bar lies in [0, 100], and a largest item fills it. |
| TopSelling.Percentage | components/admin/top-selling-products.tsx:23-24 | A bar's width; `PercentageBounds` and `AllZero` state it. |
| TopSelling.AllZero | components/admin/top-selling-products.tsx:23-24 | When every quantity is 0, every bar is 0. |
| CatalogPage.CartQuantity | app/products/page.tsx:95 | A product not in the map shows 0. |
| CatalogPage.CartItemsMapLastWins | app/products/page.tsx:29-32 | Each cart product is a key, and a later duplicate overwrites an earlier one. |
| CatalogPage.CartItemsMap | app/products/page.tsx:29-32 | The product-to-quantity lookup; `CartItemsMapLastWins` states it. |
| CatalogPage.NotInCartShowsZero | app/products/page.tsx:29-95 | A product without a cart row has no key and shows 0. |
| CatalogPage.CategoryBySlug | app/products/page.tsx:38-45 | The single-row lookup gives an id exactly when its read succeeds and one category has the slug. |
| CatalogPage.BuildQuery | app/products/page.tsx:38-62 | Each price and search constraint is present exactly when its parameter is non-empty. The category constraint is present exactly when the category read succeeds and the slug names one category. Each carries its parsed value. |
| CatalogPage.UnknownSlugAddsNoConstraint | app/products/page.tsx:38-48 | An unknown slug adds no category constraint, so every product is listed. |
| CatalogPage.FailedCategoryReadDropsFilter | app/products/page.tsx:38-48 | A category read that reports an error drops the category filter silently, so every product within the other constraints is listed. |
| CatalogPage.ConstraintsMeanWhatTheySay | app/products/page.tsx:38-62 | With a successful category read, a known slug and both bounds list exactly the category's products priced within the bounds. |
| CatalogPage.Listed | app/products/page.tsx:46-57 | A product meets the category and both price constraints; `ConstraintsMeanWhatTheySay` ties it to the query. |
| CatalogPage.MaxPrice | app/products/page.tsx:68-71 | 1000 with no products. Otherwise a listed price that is at least every listed price. |
| ProductFilters.Step | components/products/product-filters.tsx:33-40 | A null value deletes the key, and a string sets it. Every other key is unchanged. |
| ProductFilters.Applied | components/products/product-filters.tsx:30-51 | The entries applied in order, with the search text put back; `UnmentionedKept`, `LastEntryDecides` and `SearchKept` state it. |
| ProductFilters.CategoryEntries | components/products/product-filters.tsx:54-58 | Deletes the category when it is the current one, else sets it; `ToggleTwiceRestores` and `OtherCategorySelected` state it. |
| ProductFilters.PriceEntries | components/products/product-filters.tsx:61-66 | Both ends written as text; `PriceRoundTrip` states it. |
| ProductFilters.InitialRange | components/products/product-filters.tsx:22-27 | The range read from the URL, 0 and 1000 by default; `DefaultRange` and `PriceRoundTrip` state it. |
| ProductFilters.Filters.constructor | components/products/product-filters.tsx:22-27 | The panel starts from the URL and its initial range. |
| ProductFilters.Filters.ApplyFilters | components/products/product-filters.tsx:30-51 | The loop's parameters are the entries applied in order, with the current search kept. |
| ProductFilters.Filters.HandleCategoryChange | components/products/product-filters.tsx:54-58 | The category toggle is applied. |
| ProductFilters.Filters.HandlePriceChange | components/products/product-filters.tsx:61-66 | Both ends of the range are written. |
| ProductFilters.Filters.ResetFilters | components/products/product-filters.tsx:69-76 | The range becomes [0, 1000] and the reset entries are applied. |
| ProductFilters.Filters.SetPriceRange | components/products/product-filters.tsx:113-138 | The slider and the inputs replace the range. |
| ProductFilters.UnmentionedKept | components/products/product-filters.tsx:30-51 | A parameter no entry names keeps its value or its absence. |
| ProductFilters.LastEntryDecides | components/products/product-filters.tsx:32-41 | The last entry for a name decides it: null deletes it, and a string sets it. |
| ProductFilters.SearchKept | components/products/product-filters.tsx:44-47 | A non-empty search text survives every filter change. |
| ProductFilters.OtherCategorySelected | components/products/product-filters.tsx:54-58 | Choosing a category other than the current one selects it. |
| ProductFilters.ToggleTwiceRestores | components/products/product-filters.tsx:54-58 | Choosing the same slug twice restores the original parameters. |
| ProductFilters.ResetDeletesFilters | components/products/product-filters.tsx:69-76 | Reset deletes exactly the category and both prices, and keeps every other parameter. |
| ProductFilters.PriceRoundTrip | components/products/product-filters.tsx:22-66 | A panel built on the pushed URL starts from the range that was written. |
| ProductFilters.DefaultRange | components/products/product-filters.tsx:22-27 | Without price parameters the range is [0, 1000]. |
| ProductSearch.InitialQuery | components/products/product-search.tsx:17-18 | The box starts with the `search` parameter, or "". |
| ProductSearch.Search.constructor | components/products/product-search.tsx:17-18 | The box starts from the URL's search text. |
| ProductSearch.Search.SetSearchQuery | components/products/product-search.tsx:43 | The typed text replaces the query. |
| ProductSearch.Search.HandleSearch | components/products/product-search.tsx:20-34 | The pushed parameters are the current ones with `search` set or deleted. |
| ProductSearch.QueryStoredOrRemoved | components/products/product-search.tsx:26-30 | A non-empty query is stored exactly, untrimmed, and an empty one removes the parameter. |
| ProductSearch.Searched | components/products/product-search.tsx:24-30 | The pushed parameters; `QueryStoredOrRemoved`, `OtherParamsKept` and `QueryRoundTrip` state it. |
| ProductSearch.OtherParamsKept | components/products/product-search.tsx:24 | Every other parameter is carried over unchanged. |
| ProductSearch.QueryRoundTrip | components/products/product-search.tsx:17-30 | A box built on the pushed URL starts with the submitted text. |
| ProductForm.RemoveSymbols | components/product-form.tsx:92 | Only word characters and white space remain. |
| ProductForm.DashRuns | components/product-form.tsx:93 | No white space remains. |
| ProductForm.SlugAlphabet | components/product-form.tsx:90-93 | A slug uses only lower-case ASCII letters, digits, `_` and `-`, has no white space, and is never longer than the name. |
| ProductForm.SlugHasNoDoubleDash | components/product-form.tsx:92-93 | A slug never has two `-` in a row. |
| ProductForm.DashRunsWithoutSpace | components/product-form.tsx:93 | Text without white space passes the last step unchanged. |
| ProductForm.HyphenDropped | components/product-form.tsx:92-93 | "T-Shirt" gives "tshirt": hyphens of the name are removed. |
| ProductForm.EdgeSpaceGivesEdgeDash | components/product-form.tsx:93 | White space at either end of the name gives a `-` at that end of the slug, since nothing is trimmed. |
| ProductForm.Row | components/product-form.tsx:105-145 | The written row carries the form's name, slug, price, stock, category, description and image. |
| ProductForm.Form.constructor | components/product-form.tsx:50-58 | The form starts from the edited product's values, or empty. |
| ProductForm.Form.GenerateSlug | components/product-form.tsx:89-96 | Only the slug field changes, to the slug of the name. |
| ProductForm.Form.HandleSubmit | components/product-form.tsx:98-158 | The store and outcome are those of `Save`, and loading ends false. |
| ProductForm.EditWritesOneRow | components/product-form.tsx:105-126 | Editing rewrites the edited row only, and only when it exists. |
| ProductForm.CreateInsertsOneRow | components/product-form.tsx:127-145 | Creating inserts exactly one row under a fresh id and keeps the store well formed. |
| ProductForm.FailedSaveWritesNothing | components/product-form.tsx:149-157 | A failed write changes nothing and is reported, with the fallback text for an empty message. |
| ProductForm.GeneratedSlugStored | components/product-form.tsx:89-145 | After `generateSlug` and a create, the stored slug is the name's slug. |
| ProductForm.Save | components/product-form.tsx:98-158 | The submit on the store before the call; `EditWritesOneRow`, `CreateInsertsOneRow` and `FailedSaveWritesNothing` state it. |
| ProductForm.Slug | components/product-form.tsx:90-93 | Lower-case, drop symbols, then dashes for white space; `SlugAlphabet`, `SlugHasNoDoubleDash` and `HyphenDropped` state it. |
| HeroCarousel.NextIndex | components/hero-carousel.tsx:48-50 | The result stays in range, advances by one, and wraps from the last slide to 0. |
| HeroCarousel.PrevIndex | components/hero-carousel.tsx:52-54 | The result stays in range, steps back by one, and wraps from 0 to the last slide. |
| HeroCarousel.PrevUndoesNext | components/hero-carousel.tsx:48-54 | `prev` after `next` returns to the slide, and so does `next` after `prev`. |
| HeroCarousel.AdvanceIsModular | components/hero-carousel.tsx:49 | k `next` steps land on (start + k) mod n. |
| HeroCarousel.Advance | components/hero-carousel.tsx:49 | k `next` steps stay a valid slide index; `AdvanceIsModular` gives the index. |
| HeroCarousel.FullTurnReturns | components/hero-carousel.tsx:49 | As many `next` steps as there are slides return to the start. |
| HeroCarousel.Carousel.constructor | components/hero-carousel.tsx:18 | The carousel starts at slide 0. |
| HeroCarousel.Carousel.Next | components/hero-carousel.tsx:48-50 | The slide advances and stays in range. |
| HeroCarousel.Carousel.Prev | components/hero-carousel.tsx:52-54 | The slide steps back and stays in range. |
| HeroCarousel.Carousel.GoTo | components/hero-carousel.tsx:142 | Indicator k shows slide k. |
| AdminSidebar.ActiveItems | components/admin/admin-sidebar.tsx:39-40 | Exactly the items whose href is active for the path. |
| AdminSidebar.ActiveMeansSegmentPrefix | components/admin/admin-sidebar.tsx:39-40 | An item is active exactly when the path equals its href or continues it after a `/`. |
| AdminSidebar.IsActive | components/admin/admin-sidebar.tsx:39-40 | The sidebar's rule; `ActiveMeansSegmentPrefix` and `SlashBoundary` state it. |
| AdminSidebar.SevenDistinctEntries | components/admin/admin-sidebar.tsx:20-28 | There are seven entries with distinct hrefs. |
| AdminSidebar.SlashBoundary | components/admin/admin-sidebar.tsx:40 | "/admin/productsX" does not activate "/admin/products". |
| AdminSidebar.DashboardAlwaysActive | components/admin/admin-sidebar.tsx:21-40 | "/admin" is active on every "/admin/…" path. |
| AdminSidebar.TwoActiveOnProductPage | components/admin/admin-sidebar.tsx:20-40 | Example: on "/admin/products/7", exactly Dashboard and Products are active. The general rule is `ActiveMeansSegmentPrefix`. |
| Auth.RoleOf | lib/utils/auth.ts:17-21 | The role read gives no role when it reports an error or the user has no row. Otherwise it gives the row's role. |
| Auth.RequireAdmin | lib/utils/auth.ts:4-28 | No session goes to "/auth/signin?redirect=/admin". A failed role read, a missing user row or a non-admin role goes to "/", so a failed read sends even an admin home. An admin whose role read succeeds proceeds as the session user. |
| Auth.ProceedOnlyForAdmins | lib/utils/auth.ts:17-27 | The gate lets a caller through exactly when there is a session, the role read succeeds and the session's user row has the role "admin". |
| Navbar.HighlightRules | components/layout/navbar.tsx:66-105 | Home, About and Contact are active only on their exact paths. Products is active on "/products" and below it. |
| Navbar.IsActive | components/layout/navbar.tsx:66-105 | Exact match, or for Products also a `/products/` prefix; `HighlightRules` states it. |
| Navbar.ProductPageHighlightsProducts | components/layout/navbar.tsx:79-81 | A product page highlights Products and not Home, and "/productsale" does not highlight Products. |
| Navbar.IsAdmin | components/layout/navbar.tsx:35-46 | Only a signed-in user with a row whose role read succeeds can be an admin (`data?.role` is undefined after a failed read). |
| Navbar.MenuLinks | components/layout/navbar.tsx:119-163 | Signed out, the menu offers sign-in only. Signed in, it starts with the profile and the orders. |
| Navbar.AdminEntryMatchesGate | components/layout/navbar.tsx:142-149 | When the menu's role read and the gate's role read end the same way, the menu offers the admin entry exactly when the admin gate lets the user through. |
| Navbar.CartBadge | components/layout/navbar.tsx:112 | The badge shows exactly for a positive count, with that count. |
| Header.Utf8 | components/layout/header.tsx:75 | One to four bytes, each below 256. ASCII is a single byte. |
| Header.Percent | components/layout/header.tsx:75 | Three characters: `%` and two upper-case hex digits. |
| Header.EncodeURIComponent | components/layout/header.tsx:75 | Only unreserved characters, `%` and hex digits remain. |
| Header.UnreservedUnchanged | components/layout/header.tsx:75 | Text of unreserved characters is sent as is. |
| Header.EncodedTermIsOneParameter | components/layout/header.tsx:75 | The encoded term holds no `&`, `=`, `#`, `+`, `?`, `/` or space, so it stays one query value. |
| Header.SpaceIsEscaped | components/layout/header.tsx:75 | Example: "a b" is sent as "a%20b". The general properties are `EncodeURIComponent` and `EncodedTermIsOneParameter`. |
| Header.SearchTarget | components/layout/header.tsx:72-77 | The search navigates exactly when the query has a non-white-space character. |
| Header.TrimmedBeforeSending | components/layout/header.tsx:74-75 | Surrounding white space never reaches the URL. |
| Header.TrimIdempotent | components/layout/header.tsx:74 | Trimming twice is trimming once. |
| Header.HeaderIsExactOnly | components/layout/header.tsx:79-133 | The header's links use exact matching, so a product page highlights nothing there, while the navbar highlights Products. |
| Header.IsActive | components/layout/header.tsx:111 | Exact match only; `HeaderIsExactOnly` states it. |
| Common.ParseIntOfNumberToString | components/products/product-filters.tsx:61-66 | `parseInt` reads back the text `toString` writes for an integer, and for NaN. |
| Common.ParseInt | components/products/product-filters.tsx:22-27 | `parseInt` is NaN exactly when no digit follows the optional white space and sign. |
| Common.NumberToString | components/products/product-filters.tsx:61-66 | `toString` gives "NaN" for NaN and the decimal numeral otherwise. |

## Left out

- Store, authentication and cookie plumbing: the hosted client, its construction and the
  session lookup are not part of this model. The store is the in-memory `Db`, and the
  session is an optional user id passed in.
- `reduceStockQuantities` (lib/actions/stock-actions.ts:58-81) writes an un-awaited query
  builder as a column value, and the stored function it relies on is not shown. Its effect
  cannot be stated.
- Concurrent checkouts: the model is sequential. The read-then-write of each stock is
  modelled one line at a time, with no claim of atomicity or rollback.
- Floating point: money is `real`. JS doubles, rounding and `toFixed` display are not
  modelled, and neither are NaN prices or totals.
- `Number()` and `parseFloat` grammar: the catalogue's price parameters are parsed by a
  function passed in. `parseInt` is modelled on optional white space, an optional sign and
  decimal digits. Hex, exponents and `Infinity` are left out.
- UI side effects: toasts, `router.refresh`, `refreshCart`, rendering, animation, images
  and the carousel's autoplay timer and `setTimeout` are left out. Navigation is kept only
  as the outcome value naming the target URL.
- Sales chart (components/admin/sales-chart.tsx): it depends on the clock, date
  formatting and randomness.
- Timestamps: `updated_at` and `created_at` columns are not modelled, so writes that set
  them are otherwise exact.
- Query semantics beyond the stated predicates: the `ilike` pattern (wildcards, escaping,
  case folding) and result ordering are not modelled. `CatalogPage.Listed` states the
  category and price constraints only, and the name pattern is kept as the search text in
  the query.
- URL parameters are a map from name to value: parameter order and repeated names are not
  modelled, and neither is the serialisation of the pushed URL.
- Non-ASCII text: lower-casing and upper-casing map ASCII letters only. `encodeURIComponent`
  encodes each character by its UTF-8 bytes, without the URIError a lone surrogate raises.
- One fault per call: each flow takes one store fault at a time (the first failing call).
  Runs in which several calls would fail are not modelled separately, since only the first
  one is observed.
- Exceptions thrown by the store client itself (rather than returned as `{ error }`) are
  modelled as the same fault values only at the calls whose `{ error }` the code inspects,
  in the flows that wrap their calls in one `try` (`CheckoutActions.PlaceOrder`,
  `CheckoutForm.Submit`, the stock editor and the product form). There a throw and a
  returned error reach the same outcome. The cart line editor tells a returned error and a
  thrown one apart (`CartItems.Write`), because a throw there skips the local list update.
- CheckoutForm.Submit: the TypeError descriptions for a null profile and a missing cart prop
  are V8's texts (`NullProfileError`, `MissingCartError`); other engines word them
  differently.
- CheckoutForm.Submit: throws at the three calls whose result is ignored are not modelled.
  These are the profile update (components/checkout/checkout-form.tsx:87-94), the status
  update (143-149) and the cart delete (152). A throw there reaches the catch at 159-165:
  an error toast, no navigation, and the processing flag cleared. The model's
  `ProfileUpdateFails`, `StatusUpdateFails` and `CartClearFails` are returned errors, which
  the code ignores.
- CheckoutActions.PlaceOrder: a throw at the cart delete (lib/actions/checkout-actions.ts:124)
  would return `{ success: false }` after the order is placed. It is not modelled:
  `CartClearFails` is a returned error, which the code ignores.
- AdminOrders.ShortId: order ids are UUID strings in the store (types/supabase.ts:127). The
  model numbers orders with a counter (`Store.Order.id` is a `nat`), so `ShortId` is stated
  on the id's text and is not applied to the model's ids.
- Search filters of the admin lists: the orders and customers pages' `or(...ilike...)`
  search over several columns is not modelled; their pagination, status filter and
  statistics are.
- The dashboard's top-products and recent-orders queries (app/admin/page.tsx) are not
  modelled as queries. `TopSelling` models how the fetched top products are drawn.
- CheckoutForm.Submit and CheckoutForm.OrderSteps: a cart row whose product was deleted
  arrives with a null joined product. The source then throws a TypeError while building
  the order (components/checkout/checkout-form.tsx:98-100 and 126-131). That happens after
  the profile update and before the order insert, and the error toast is shown. Every
  `CheckoutItem` carries a product id and price, so this path is not expressible here.
- CheckoutActions.StockLoop: its "Product X not found" branch follows
  lib/actions/checkout-actions.ts:100-103. With the hosted client, `.single()` on no rows
  returns an error instead, so a missing product is reported by lines 95-98 as "Failed to
  fetch product X: ..." and lines 100-103 never run. That run is the `StockReadFails`
  input. The message text the client uses for no rows is not part of this model.
- `handleChange` of the checkout and product forms (field-by-field input) is left out.
  Their submit handlers take the form state as it stands.
- Duplicate `getStatusColor` copies on the customer order pages are the same function as
  `AdminOrders.StatusColor`. The rest of those pages is fetch-and-render.
- CartItems.List.UpdateQuantity uses the corrected guard `Accepts` rather than the written
  one (see Findings). `AcceptsAsWritten` records the written behaviour.

## Findings

| source | as written | input that shows it | evidently intended | confidence | as-written member | corrected member |
|---|---|---|---|---|---|---|
| components/cart/cart-items.tsx:21-22 | `if (quantity < 1) return` on `Number.parseInt(e.target.value)` | clearing the quantity field: `parseInt("")` is NaN and `NaN < 1` is false, so the update is sent. JSON encodes NaN as null, so the store is asked to write null, and the local list shows NaN | only whole numbers of at least 1 are written | not executed | CartItems.EmptyFieldPassesGuardAsWritten | CartItems.AcceptsAgreesOnNumbers |
| app/checkout/page.tsx:48 | `<CheckoutForm profile={profile} />` passes no `cartItems`, although components/checkout/checkout-form.tsx:26-32 declares it | any complete submit: the profile is saved, then `cartItems.reduce` (checkout-form.tsx:98) throws on undefined and the error toast is shown, so this flow never writes an order | the page passes the cart it fetched (page.tsx:25-28), and a complete submit places the order | not executed | CheckoutForm.MountedWithoutCartNeverOrders | CheckoutForm.PassedCartPlacesOrder |
