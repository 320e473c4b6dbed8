# nadi-pos core, modelled in Dafny

nadi-pos is a point-of-sale app for small shops, written with React Native and zustand stores
over an on-device SQLite database. This project models its core as pure state transitions:

- the **cart** (a sequence of product snapshots with quantities);
- the **order history**, and the **checkout and payment** screens that turn a cart into an order;
- the **inventory store** writing the `products` and `inventory_cache` tables inside
  transactions, with the schema `initDatabase` declares;
- the **inventory** and **product form** screens that drive it;
- the **reports** screen's bucketing of sales by week of month and by weekday;
- the **shop profile** kept in `local_meta`;
- the **auth store**, the **PIN lock** overlay, and the root layout's auto-lock on going to
  the background.

The model has these modules, one per concern:

- `Common`: option, order-preserving filter, subsequence.
- `Text`: digits, ASCII lower-casing, `includes`, integer `toString` and `parseInt`.
- `Database`: tables as maps keyed by primary key. Statements run either one by one (autocommit) or as an all-or-nothing transaction. An I/O failure is a parameter naming the statement that fails.
- `Inventory`, `Cart`, `Orders`, `Payment`, `Checkout`, `InventoryScreen`, `ProductForm`, `Reports`, `Shop`, `Auth`, `PinLock`, `Layout`.

A few things are taken as parameters rather than computed:

- **Order of rows.** The SQL query has no ORDER BY, so the order in which SQLite returns `products` rows is a parameter (`scan`). The parameter itself may omit or repeat rows; `Inventory.EnumeratesProducts` states when it lists every row exactly once, and `Inventory.FetchShowsEveryRow` assumes it.
- **Time.** Calendar dates are a `Stamp` record: local-clock milliseconds plus the local year, month and day of month. The weekday is derived from the milliseconds. 1 January 1970 was a Thursday.
- **Randomness.** Random values are parameters: product ids, the order number's draw, and the dummy password.
- **Prices and amounts** are whole rupiah.

The code has no sale writer:

- A sale (`handlePay`) writes nothing to SQLite and does not decrement stock. After selling two Kopi from a stock of 10, the stock is still 10 (`Payment.KopiSale`).
- No atomic sale writer, idempotent commit or sync cursor exists in the code, so none is modelled.

The payment screen declares a tendered amount but has no input that sets it (`setAmountTendered` is never called). The amount stays empty, so the cash change row is never shown (`Payment.ChangeNeverShown`). `Payment.Change` still models the row's condition and amount for any text.

## Model

| member | source | states |
|---|---|---|
| `Cart.AddToCart` | store/cartStore.ts:22-35 | A new product is appended with quantity 1. An existing line gets +1 and keeps its snapshot and position, and every other line is unchanged. Valid carts stay valid: ids distinct, quantities at least 1. |
| `Cart.RemoveFromCart` | store/cartStore.ts:36-39 | Exactly the lines with other ids remain, as a subsequence in order, each as many times as it occurs. An absent id is a no-op. |
| `Cart.RemoveKeepsValid` | store/cartStore.ts:36-39 | Removing a line keeps the cart invariant. |
| `Cart.UpdateQuantity` | store/cartStore.ts:40-54 | A quantity of 0 or less is exactly `RemoveFromCart`. A positive one sets only that id's line. An absent id leaves the cart as it was. Valid carts stay valid. |
| `Cart.ClearCart` | store/cartStore.ts:55 | The empty cart: both totals 0, and valid. |
| `Cart.TotalItemsAtLeastLines` | store/cartStore.ts:56-59 | A cart whose quantities are all at least 1 counts at least one item per line. |
| `Cart.TotalPriceNonNegative` | store/cartStore.ts:60-63 | With no negative price or quantity, the total price is not negative. |
| `Cart.TotalsAppend` | store/cartStore.ts:56-63 | Both totals of two carts joined are the sums of their totals. |
| `Cart.MapLineTotals` | store/cartStore.ts:56-63 | Changing the quantity of the one line with an id moves the item count by the quantity difference, and the price by the snapshot price times it. |
| `Cart.AddRaisesTotalItems` | store/cartStore.ts:22-35 | Every `addToCart` raises the item count by exactly 1. |
| `Cart.AddRaisesTotalPrice` | store/cartStore.ts:24-34 | Every `addToCart` raises the total price by the stored snapshot's price. The price of the product passed in counts only when the line is new. |
| `Cart.RemoveLowersTotals` | store/cartStore.ts:36-39 | Removing a line lowers both totals by exactly that line's contribution. |
| `Orders.AddOrder` | store/orderStore.ts:53-55 | The new order is at index 0 and the old list follows unchanged, so the length grows by 1. |
| `Orders.AddOrderKeepsDuplicates` | store/orderStore.ts:53-55 | No deduplication: adding an order twice gives two more entries with its id. |
| `Orders.OrdersByMonth` | store/orderStore.ts:56-62 | Exactly the orders of that month and year, as a subsequence in stored order, each as many times as it is stored. |
| `Orders.OrdersByRange` | store/orderStore.ts:63-72 | Exactly the orders timed within both bounds, inclusive, as a subsequence in stored order, each as many times as it is stored. |
| `Orders.EmptyRange` | store/orderStore.ts:63-72 | A start after the end selects nothing. |
| `Orders.SeedTotalsAreStored` | store/orderStore.ts:25-52 | Totals are stored, not derived: every seed order but the first has no items and a non-zero total. |
| `Orders.WeekdayNext` | app/reports.tsx:81 | One day later `getDay` is the next weekday, Saturday (6) wrapping to Sunday (0). |
| `Orders.WeekdayAnchors` | app/reports.tsx:81 | 1 January 1970 is a Thursday (4), and every millisecond of 5 January 2026 is a Monday (1). |
| `Payment.OrderNumber` | app/payment.tsx:17 | The order number lies in [1000000000, 9999999999] for every draw in [0, 1). |
| `Payment.OrderIdShape` | app/payment.tsx:17 | The id is `#` plus 10 digits (11 characters), and its number reads back from the text. |
| `Payment.Open` | app/payment.tsx:17-22 | A fresh screen has the method 'Cash', an empty amount and an 11-character id. |
| `Payment.SelectMethod` | app/payment.tsx:100-113 | Picking the k-th dropdown entry sets the method to exactly that entry of 'Cash', 'E-Wallet', 'Card' and changes nothing else. |
| `Payment.ScreenInvariant` | app/payment.tsx:17-22 | Over any sequence of dropdown picks, the id stays the one drawn at opening, the method stays one of the three, and the tendered amount is unchanged. |
| `Payment.ChangeNeverShown` | app/payment.tsx:22 | Since nothing sets the tendered amount, the change row stays hidden after any picks. |
| `Payment.Change` | app/payment.tsx:116-121 | The change row shows iff the method is 'Cash' and some amount is typed. The amount is NaN iff the text does not parse. Otherwise it is the larger of 0 and paid minus total. |
| `Payment.ChangeSettles` | app/payment.tsx:116-121 | When the amount paid covers the total, total plus change equals the amount paid. |
| `Payment.HandlePay` | app/payment.tsx:25-38 | The new first order holds the cart lines, the cart's total, the screen's id and method, and the time. The cart is emptied. The inventory store and the database are unchanged. |
| `Payment.PayAddsCartTotal` | app/payment.tsx:25-38 | Paying adds exactly the cart's total to the recorded revenue. |
| `Payment.PaidOrderInItsMonth` | app/payment.tsx:25-38 | The paid order appears in its own month's query. |
| `Payment.KopiSale` | app/payment.tsx:25-38 | Two Kopi at 18000 record an order of 36000 with one line of quantity 2. The stock stays 10 in the table and in every fetch. |
| `Checkout.Summarize` | app/checkout.tsx:10-14 | The header count is the item count. The discount is 0, and total = subtotal = the cart's price total. |
| `Checkout.CheckoutTotalIsRecorded` | app/checkout.tsx:12-14 | The total the checkout shows is the total `handlePay` records. |
| `Checkout.MinusAtOneRemoves` | app/checkout.tsx:56 | Minus on a line of quantity 1 is `removeFromCart`, and no line with that id remains. |
| `Checkout.MinusLowersTotals` | app/checkout.tsx:56 | In a valid cart, minus lowers the count by 1 and the total by the line's price. |
| `Checkout.PlusIsAdd` | app/checkout.tsx:60 | In a valid cart, plus on a line gives the same cart as adding its product again. |
| `Checkout.PlusRaisesTotals` | app/checkout.tsx:60 | In a valid cart, plus raises the count by 1 and the total by the line's price. |
| `Database.Exec` | store/inventoryStore.ts:57-64 | A statement fails iff it is a plain INSERT on a key that already has a row, and the failure is a constraint violation. |
| `Database.RunAutocommit` | store/shopStore.ts:64-67 | Statements run one by one. An I/O error happens only when a fault is scheduled within the list, and such a fault always stops the run with an error (a constraint violation before it comes first). Without a fault the only possible error is a constraint violation. |
| `Database.RunTransaction` | store/inventoryStore.ts:56-65 | A transaction commits iff the statement-by-statement run meets no error. The committed database is the fault-free run's result. |
| `Database.FaultAbortsTransaction` | store/inventoryStore.ts:78-92 | A fault on any statement of a transaction aborts the whole of it. |
| `Database.AutocommitKeepsPrefix` | store/shopStore.ts:64-67 | Outside a transaction, a fault at statement k keeps the writes of the first k statements and reports an I/O error. |
| `Database.InitDatabase` | services/database.ts:11-89 | Every table of the schema exists afterwards, and a table that already existed is untouched (IF NOT EXISTS). |
| `Database.InitDatabaseIdempotent` | services/database.ts:11-89 | Running `initDatabase` twice is the same as running it once. |
| `Database.DeclaredCascades` | services/database.ts:48-88 | Only two parents cascade. Deleting a `cart_draft` cascades to `cart_items`. Deleting a `transactions_local` cascades to its items and payment attempts. Nothing cascades from `products`. |
| `Database.StockHasNoForeignKey` | services/database.ts:30-34 | `inventory_cache` is keyed by `product_id` and declares no foreign key. |
| `Database.DeclaredNotNull` | services/database.ts:22-53 | These columns are NOT NULL: product name and price, stock, and cart item qty and price. `sync_status` is nullable. |
| `Inventory.Query` | store/inventoryStore.ts:30-42 | Each fetched product comes from a `products` row. Its stock is the `inventory_cache` row's stock, or 0. It has no image. Every row visited is fetched. |
| `Inventory.QueryOnePerRow` | store/inventoryStore.ts:30-42 | When every scan entry names a product row, there is one product per scan entry, in scan order. |
| `Inventory.FetchProducts` | store/inventoryStore.ts:26-49 | On success the list is the join result. On a failed read the list is kept. Loading ends either way. |
| `Inventory.FetchShowsEveryRow` | store/inventoryStore.ts:26-49 | When SQLite visits each `products` row once, a successful fetch lists one product per row: as many products as rows, every row's id present, and no id twice. |
| `Inventory.AddProduct` | store/inventoryStore.ts:50-72 | The add commits iff no fault hits the two inserts and the fresh id is in neither table. Then both rows exist (product pending sync, stock given) and the list is refetched. Otherwise nothing changes. |
| `Inventory.AddedProductIsFetched` | store/inventoryStore.ts:35-42 | After the add, the refetched product has the given fields, is pending, and has no image. |
| `Inventory.UpdateProduct` | store/inventoryStore.ts:73-98 | A name or price uses COALESCE on an existing row: only the given fields change, and the row is stamped and set pending. A stock upserts verbatim, unclamped. Other rows are unchanged. All or nothing. |
| `Inventory.OrphanStockIsInvisible` | store/inventoryStore.ts:79-91 | A stock-only update of an unknown id creates a stock row that no fetch shows. |
| `Inventory.DeleteProduct` | store/inventoryStore.ts:99-110 | A committed delete removes exactly the id from both tables and refetches. Otherwise nothing changes. |
| `Inventory.DeleteLeavesOthers` | store/inventoryStore.ts:99-110 | After a delete, no fetch shows the product, and every product fetched was fetched the same way before. |
| `InventoryScreen.NewStock` | app/inventory.tsx:34-37 | The new stock is the larger of 0 and current plus change, so it is never negative. |
| `InventoryScreen.MinusAtZeroStaysZero` | app/inventory.tsx:96 | Minus at stock 0 stays 0. |
| `InventoryScreen.PlusAddsOne` | app/inventory.tsx:103 | Plus adds exactly 1 to any stock of at least -1. A stock further below zero becomes 0. |
| `InventoryScreen.HandleStockChange` | app/inventory.tsx:34-37 | Only the stock row changes, to the clamped value. The `products` table, names and prices included, and `local_meta` are untouched. |
| `InventoryScreen.StockChangeIsFetched` | app/inventory.tsx:34-37 | The refetch shows the new non-negative stock with the same name and price. |
| `InventoryScreen.FilterByName` | app/inventory.tsx:15-17 | The filter keeps exactly the products whose lower-cased name contains the lower-cased query, as a subsequence in order, each as many times as it occurs. |
| `InventoryScreen.EmptyQueryShowsAll` | app/inventory.tsx:15-17 | An empty query shows every product. |
| `InventoryScreen.QueryCaseIgnored` | app/inventory.tsx:15-17 | Queries that lower-case alike give the same list. |
| `InventoryScreen.NarrowingQuery` | app/inventory.tsx:15-17 | A query containing another shows only products the shorter one shows. |
| `ProductForm.FindProduct` | app/add-product.tsx:21 | `products.find` finds a product iff one has the id, and the one found has that id and is listed. |
| `ProductForm.Prefill` | app/add-product.tsx:19-29 | Editing a listed product fills its name and image, with price and stock as text that parses back to them. An unknown id or no id leaves the form empty. |
| `ProductForm.HandleSave` | app/add-product.tsx:31-63 | An empty field, or a price or stock that is not a number, makes no store call. Otherwise the result is an update with all four fields when editing, else an add. |
| `ProductForm.SaveDispatches` | app/add-product.tsx:45-60 | A complete numeric form calls update iff editing and add iff not. |
| `ProductForm.NegativeStockAccepted` | app/add-product.tsx:37-60 | There is no range check: a stock of -5 reaches `addProduct`. |
| `ProductForm.PrefillThenSave` | app/add-product.tsx:19-60 | Saving an unedited prefilled form writes the product's own values back. |
| `ProductForm.SavedEditIsStored` | app/add-product.tsx:45-51 | A committed edit stores the typed name, price and stock, stamped and pending. |
| `Reports.WeekOfMonth` | app/reports.tsx:12-15 | The week of month is in 1..4. Weeks 1-3 are days 7(w-1)+1..7w, and week 4 is days 22 and later. |
| `Reports.DayIndex` | app/reports.tsx:81-82 | The day slot is in 0..6: Sunday maps to 6 and Monday..Saturday to 0..5. |
| `Reports.Bucket` | app/reports.tsx:51-58 | Each bucket equals its reference total, and the buckets sum to the total of the in-range orders. |
| `Reports.ChartMax` | app/reports.tsx:60 | The chart maximum is at least 100000 and at least every bucket. It is one of them or 100000. |
| `Reports.WeekWindow` | app/reports.tsx:64-71 | The window starts at a Monday midnight, contains now, ends on a Sunday, and spans 7 days less 1 ms. |
| `Reports.SlotIsDaysSinceMonday` | app/reports.tsx:73-84 | Inside the window, an order's day slot is its day count since the window's Monday. |
| `Reports.TodayOrders` | app/reports.tsx:39-40 | Exactly the orders on today's local calendar day, as a subsequence in stored order, each as many times as it is stored. |
| `Reports.TodayWithinWeek` | app/reports.tsx:39-76 | Today's orders all fall in the week's orders. |
| `Reports.BuildReport` | app/reports.tsx:33-89 | Weekly buckets sum to the month's sales. Daily buckets sum to the week's sales. Each bucket is its reference total, and each maximum bounds its chart. |
| `Shop.FetchProfile` | store/shopStore.ts:29-56 | Each field with a stored key takes the stored value; the others keep theirs. A failed read keeps the profile. Loading ends either way. |
| `Shop.FreshFetchIsDefault` | store/shopStore.ts:18-27 | With no profile rows stored, a fresh store fetches `DEFAULT_PROFILE`. |
| `Shop.ProfileStatements` | store/shopStore.ts:64-67 | Exactly four upserts, one per key `shop_name`, `shop_email`, `shop_phone` and `shop_address`. |
| `Shop.UpdateProfile` | store/shopStore.ts:58-75 | Success sets the profile. A fault at the k-th upsert keeps the profile while the first k keys stay written. Other keys and tables are unchanged, and loading ends. |
| `Shop.UpdateThenFetch` | store/shopStore.ts:29-69 | After a successful update, a fetch yields exactly the profile written. |
| `Auth.CheckRegistration` | store/authStore.ts:32-53 | Registered iff a non-empty PIN and phone are stored. Phone and name are taken from the store. A failed read changes only the loading flag. |
| `Auth.SignUpEmail` | store/authStore.ts:63-64 | The address is not empty and its only `@` comes right after the phone's digits. |
| `Auth.SignUpEmailParts` | store/authStore.ts:63-64 | The e-mail's local part is exactly the phone's digits in order, followed by `@nadi-pos.local`. |
| `Auth.Register` | store/authStore.ts:55-109 | The sign-up outcome is ignored. When the four writes succeed, PIN, phone, name and password are stored and the user is registered and authenticated. A failed write rethrows and keeps the flags. |
| `Auth.RegisterPartialWrites` | store/authStore.ts:91-94 | A write failing at k keeps exactly the earlier writes. |
| `Auth.RegisterThenCheck` | store/authStore.ts:32-47 | After registering, the next check counts the user as registered iff the PIN and phone given were non-empty. |
| `Auth.LoginWithPin` | store/authStore.ts:111-126 | Login succeeds iff a PIN is stored and equals the entry. Only success sets `isAuthenticated`, and loading ends. |
| `Auth.LoginAfterRegister` | store/authStore.ts:91-119 | After registering, login succeeds exactly for the registered PIN. |
| `Auth.LockApp` | store/authStore.ts:128-130 | Only `isAuthenticated` changes, to false. |
| `Auth.Logout` | store/authStore.ts:132-140 | `logout` is `lockApp`. |
| `Auth.LockThenLogin` | store/authStore.ts:111-130 | Locking and then entering the stored PIN restores the state before the lock. |
| `PinLock.Press` | components/PinLock.tsx:27-32 | Below six digits a press appends the digit and clears the error. At six, nothing changes. |
| `PinLock.Delete` | components/PinLock.tsx:34-37 | Delete drops the last character (nothing on an empty buffer) and clears the error. |
| `PinLock.StepWith` | components/PinLock.tsx:13-42 | A hidden overlay, or an authenticated user, ignores keys. On a visible overlay Delete applies `handleDelete`. A digit applies `handlePress`, except on a five-digit buffer, where the press makes the sixth digit and the chosen verification runs on it. The buffer stays at most six digits. |
| `PinLock.PadStaysWellFormed` | components/PinLock.tsx:27-37 | Over any key sequence the buffer holds at most six characters, all digits. |
| `PinLock.VerifyAsWritten` | components/PinLock.tsx:19-25 | A wrong PIN empties the buffer and sets the error. The right one authenticates and keeps the buffer. |
| `PinLock.StaleBufferUnlocks` | components/PinLock.tsx:19-32 | As written, after unlock and re-lock the six digits remain. Delete plus the last digit unlocks with one digit press. |
| `PinLock.Verify` | components/PinLock.tsx:19-25 | Corrected: the buffer is empty after every verification. Authenticated iff already so or the PIN matches. |
| `PinLock.SixDigitsVerify` | components/PinLock.tsx:13-17 | The sixth digit triggers verification of the six digits entered. |
| `PinLock.UnlockNeedsDigits` | components/PinLock.tsx:13-32 | With the corrected step, unlocking takes at least as many digit presses as the buffer lacks of six. |
| `PinLock.UnlockLeavesEmptyPad` | components/PinLock.tsx:19-25 | With the corrected step, the buffer is empty whenever a key press unlocks. |
| `PinLock.RelockNeedsSixDigits` | components/PinLock.tsx:13-32 | Corrected: after unlock and re-lock the buffer is empty, and unlocking again takes six digit presses. |
| `Layout.OnChange` | app/_layout.tsx:19-30 | The handler locks iff the last state matched 'inactive' or 'active', the next is 'background' and the user is registered. The current state always becomes the next. |
| `Layout.ForegroundIsActive` | app/_layout.tsx:21 | The pattern for 'inactive' or 'active' matches iff the state contains "active". |
| `Layout.UnregisteredNeverLocks` | app/_layout.tsx:25 | An unregistered user is never locked by any sequence of changes. |
| `Layout.BackgroundTransitions` | app/_layout.tsx:20-27 | 'active' or 'inactive' to 'background' locks a registered user; 'background' to 'background' does not. |
| `Text.ParseIntOfIntToString` | app/add-product.tsx:23-38 | `parseInt` of an integer's decimal text gives the integer back. |
| `Text.ParseInt` | app/add-product.tsx:38 | `parseInt` yields a number only if the text has a digit, and a plain run of digits reads as its decimal value. |
| `Text.IntToString` | app/add-product.tsx:24-25 | The text is non-empty, starts with '-' iff the number is negative, and is otherwise all digits. |
| `Text.KeepDigits` | store/authStore.ts:63 | Exactly the digits of the text, in order, each as often as it occurs. |
| `Text.Lower` | app/inventory.tsx:15-17 | Same length; each character lower-cased; no upper-case ASCII letter remains. |
| `Text.LowerIdempotent` | app/inventory.tsx:15-17 | Lower-casing twice is lower-casing once. |
| `Text.ContainsEmpty` | app/inventory.tsx:15-17 | Every string contains the empty string. |
| `Text.ContainsTransitive` | app/inventory.tsx:15-17 | `includes` is transitive. |

## Left out

- SQLite, SecureStore and Supabase I/O: abstracted as maps plus parameters.
  - A statement's failure is a fault index.
  - A failed read is a flag.
  - The rows an unordered query returns are a sequence of ids. Only `Inventory.FetchShowsEveryRow` constrains it to list every row once; elsewhere it may omit or repeat rows.
  - The remote `signUp` call is left out entirely, because its result never changes what `register` does.
- The `getDB` singleton and `PRAGMA journal_mode`: they have no effect on the modelled tables.
- Cascades and foreign keys: recorded as declared constraints only, and `PRAGMA foreign_keys` is never set. The only parent row the stores delete is a `products` row (`deleteProduct`). Its child tables, `cart_items` and `transaction_items_local`, declare no cascade and are never written, so no cascade or foreign-key check can change the outcome.
- Tables no store writes (`customers_cache`, `cart_draft`, `cart_items`, `transactions_local`, `transaction_items_local`, `payment_attempts_local`): only their declarations are modelled.
- `local_meta.value` may be NULL in SQL: the model stores text only, since `updateProfile` always writes a string.
- Floating point: prices, totals and tendered amounts are whole rupiah.
  - `parseFloat` is a parameter (`None` for NaN).
  - The 0.6/0.45 cost estimates, `formatCurrencyShort`, `toLocaleString` and chart bar percentages are display-only.
- Text.ParseIntOfIntToString: `parseInt` is modelled for decimal text only. It leaves out the `0x` prefix and Unicode white space, which no number rendered by the app produces. The decimal rendering is exact for every integer, while JavaScript's `toString` uses exponent form from 10^21 on (which `parseInt` reads as its leading digit), and numbers above 2^53 are rounded. The round trip is therefore promised only for the safe integers. That covers the order numbers, but not a price or stock typed beyond 2^53.
- Text.Lower: `toLowerCase` is modelled for ASCII letters only. Non-ASCII case folding is left out.
- Dates and time zones: an order's date is a `Stamp` record.
  - Local-clock milliseconds stand in for `getTime`, with the zone offset treated as constant (no daylight-saving shifts).
  - Year, month and day of month are fields.
  - `toISOString` round trips are left out.
- Orders.OrdersByMonth: it reads the stored month and year fields, without checking them against the stored milliseconds.
- Randomness: product ids, the order number's draw (as a fraction `num/den`) and the dummy password are parameters.
- Inventory.AddProduct: it takes the fresh id as given. A colliding random id is modelled as the constraint violation it causes.
- React effect scheduling and async interleaving: every action and handler is one atomic step, and React's batching of `set` calls is not modelled.
- PinLock.StepWith: the `loginWithPin` it calls is run with a successful secure-store read. The failed-read path of login is covered by `Auth.LoginWithPin` alone.
- Screens with no logic beyond display and navigation (dashboard, index, daftar, masuk, starting, payment-success, loading screen, profile, history, order detail): left out.
- The point-of-sale screen's product filter is the inventory screen's (`InventoryScreen.FilterByName`).
- `database.types.ts`: generated type declarations with no behaviour.
- Navigation (`router.back`, `router.replace`) and alerts are left out. `ProductForm.HandleSave` returns which alert or store call happens instead.

## Findings

| source | as written | input that shows it | evidently intended | confidence | as-written member | corrected member |
|---|---|---|---|---|---|---|
| components/PinLock.tsx:19-25 | A successful verification leaves the six digits in the buffer. The overlay stays mounted, so after the next auto-lock it opens showing them. | Stored PIN 123456. Unlock with 123456, then go to the background. On the lock screen press Delete, then 6: the app unlocks after one digit press, and any digit press before Delete is ignored. | The buffer empties after every verification, so each unlock needs all six digits. | not executed | `PinLock.VerifyAsWritten` | `PinLock.Verify` |
