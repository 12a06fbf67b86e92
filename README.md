# Café ordering and billing — a Dafny model

This project models the bookkeeping core of a café ordering and billing
application. The application has a Node/Express/Mongoose backend and a React
frontend. The model covers these parts:

- **Order batch ledger** (`OrderLedger`). There is one order per table. It
  holds confirmed batches of dishes. Waiters confirm batches, list the
  unserved orders, mark an order served, and add or remove single dishes.
- **Invoice numbering and bills** (`BillModel`, `Billing`).
  - A per-year counter numbers bills `CAF-<year>-<00001>`.
  - Bill creation validates its request and always stores a PENDING bill.
  - Listing is newest first; paying is one status write.
- **History analytics** (`History`). This is the bill-history filter (status,
  payment, search, date window), the PAID-bill summary with its best-selling
  item, and the daily revenue trend.
- **Tables, suppliers, employees, inventory** (`Tables`, `Suppliers`,
  `Employees`, `Inventory`). These are the small ledgers behind the admin
  screens: table reset, supplier purchases and payments, attendance and
  check-out hours, stock intake and the low-stock list. The table reset is
  the controller function `clearTable`; `backend/routes/tableRoutes.js`
  mounts no route for it.
- **The client cart** (`Cart`). For each table the browser keeps a list of
  batches; each batch is an insertion-ordered object of cart items.
- **The pages that use it.** Each page has its own module:
  - `MenuPage`: variant cards, filters, cart bar;
  - `ConfirmOrder`: review and confirm;
  - `AdminPage`: the kitchen screen (serve and bill, add a dish);
  - `AdminBilling`: pending bills per table, print and pay;
  - `AdminHistory`: client-side summary and trend;
  - `LegacyOrder`: the older list-based order page.
- **The image migration script** (`MigrateImages`). It matches menu items to
  image files by a normalised name.

## Modelling conventions

- The document stores are Dafny classes. Each has a `seq` of records and a
  `nextId` counter for fresh document ids. Each handler is a method whose
  `modifies` clause names its store, and whose `ensures` clauses give the
  whole new state for every outcome.
- Errors are `Result` values with `BadRequest` (400), `NotFound` (404) or
  `ServerError` (500). A Mongoose validation failure or a `TypeError` inside
  a handler's `try` is a 500.
- Money and quantities that the code adds up are `real`; timestamps are
  milliseconds as `int`.
- Several values come from the environment and are parameters:
  - the current time and the current year;
  - a computed date-window start;
  - `Date.now()` batch ids;
  - the file-stem function and the upload URL of the migration.
- JavaScript objects used as ordered dictionaries are modelled as sequences
  of keys with a `map`. Their key order is insertion order.
- The sorts are modelled by value-level insertion sorts:
  - Mongo `sort` and the stable `Array.prototype.sort` use `Sorting.SortByKey`,
    whose contract includes stability;
  - string orderings use `Sorting.SortByText`.
- A UTC calendar date `YYYY-MM-DD` is modelled as the day number
  `floor(ms / 86400000)`. That map is monotone and one-to-one on dates, so
  grouping and ordering by it agree with the date strings.

## Model

| member | source | states |
|---|---|---|
| OrderLedger.OrderStore.ConfirmBatch | backend/routes/orderRoutes.js:10-47 | A missing table name or empty items is a 400 and an item without name or price a 500, both changing nothing; otherwise the new confirmed batch is appended to the table's unserved order, or a new unserved order holding only it is created; at most one unserved order per table is kept |
| OrderLedger.NewBatchItem | backend/routes/orderRoutes.js:20-29 | The stored batch is confirmed, has one item per request item in order, copying name and price, quantity (default 1), subCategory or null, and menuItem falling back to `_id` |
| OrderLedger.ConfirmedItemsAt | backend/routes/orderRoutes.js:22-28 | Stored item k is built from request item k |
| OrderLedger.FindOpen | backend/routes/orderRoutes.js:18 | Finds an unserved order of the table, or reports that none exists |
| OrderLedger.OpenOrderKeepsOneOpen | backend/routes/orderRoutes.js:31-36 | Creating an order only when the table has none open keeps one unserved order per table |
| OrderLedger.UpdateKeepsOneOpen | backend/routes/orderRoutes.js:37-40 | An update that keeps table names and reopens no order keeps one unserved order per table |
| OrderLedger.OrderStore.ActiveOrders | backend/routes/orderRoutes.js:55 | Exactly the unserved orders, each as often as stored, in ascending `createdAt` |
| OrderLedger.FindOrder | backend/routes/orderRoutes.js:69-75 | `findById`: the position of an order with the id, or none when no order has it |
| OrderLedger.OrderStore.MarkServed | backend/routes/orderRoutes.js:67-82 | Unknown id is a 404 changing nothing; otherwise only that order's `served` becomes true; marking an already served order changes nothing |
| OrderLedger.TargetBatch | backend/routes/orderRoutes.js:95-97 | The batch named by `batchId`, else the last batch; none when that batch does not exist |
| OrderLedger.FindBatch | backend/routes/orderRoutes.js:133-134 | `batches.id(batchId)`: a batch with the id, or none when no batch has it |
| OrderLedger.FindItem | backend/routes/orderRoutes.js:136-137 | `items.id(itemId)`: an item with the id, or none when no item has it |
| OrderLedger.AppendToBatch | backend/routes/orderRoutes.js:107-112 | Appending keeps the batch id, flag and earlier items and adds the item last |
| OrderLedger.OrderStore.AddItem | backend/routes/orderRoutes.js:88-120 | Unknown order is a 404 and a missing item a 500, both changing nothing; when the named (or last) batch exists, an unnamed or priceless item is a 500 changing nothing, and otherwise one item (quantity defaulting to 1, subCategory to null) is appended to that batch; when it does not exist, one new empty confirmed batch is stored and the item is dropped, whatever its fields; every other batch and order is unchanged |
| OrderLedger.OrderStore.RemoveItem | backend/routes/orderRoutes.js:126-147 | Succeeds iff order, batch and item all exist (else 404, nothing changes); removes exactly that item, keeps the other items in order, keeps the batch even when it becomes empty |
| OrderLedger.OrderStore.constructor | backend/models/Order.js:31-42 | An empty order collection satisfies the one-open-order invariant |
| BillModel.ParseStatus | backend/models/Bill.js:34-38 | Only the four status spellings are accepted, each back to its status |
| BillModel.StatusRoundTrip | backend/models/Bill.js:34-38 | Every status's name parses back to that status |
| BillModel.ParseMethod | backend/models/Bill.js:27-31 | Only the four payment-method spellings are accepted |
| BillModel.MethodRoundTrip | backend/models/Bill.js:27-31 | Every payment method's name parses back to it |
| BillModel.Decimal | backend/models/Bill.js:64 | `String(n)`: at least one digit, no leading zero unless n is 0 |
| BillModel.DecimalRoundTrip | backend/models/Bill.js:64 | Reading the decimal digits of n gives n |
| BillModel.PadStart | backend/models/Bill.js:64 | `padStart` left-pads to the width and never truncates |
| BillModel.LeadingZeros | backend/models/Bill.js:64 | Leading zeros do not change a digit string's value |
| BillModel.Padded | backend/models/Bill.js:64 | The counter suffix is all digits |
| BillModel.PaddedShape | backend/models/Bill.js:64 | The suffix is 5 characters below 100000, otherwise exactly the number's digits, and always ends with them |
| BillModel.DecimalLength | backend/models/Bill.js:64 | n has more than k digits exactly when n is at least 10^k |
| BillModel.DashIndex | backend/models/Bill.js:64 | Locates the first '-' of a string |
| BillModel.InvoiceRoundTrip | backend/models/Bill.js:64 | Parsing `CAF-<year>-<padded n>` gives back year and n |
| BillModel.InvoiceNumberInjective | backend/models/Bill.js:64 | Different (year, counter) pairs give different invoice numbers |
| BillModel.Advance | backend/models/Bill.js:54-62 | The year's counter (0 if missing) goes up by exactly 1; every other year's counter is unchanged |
| BillModel.AdvanceAllCounts | backend/models/Bill.js:54-62 | After numbering a run of bills, a year's counter has grown by the number of bills of that year |
| BillModel.NumberingAt | backend/models/Bill.js:54-64 | The i-th bill numbered gets its year's starting counter plus its rank among that year's bills so far |
| BillModel.NumberingDistinct | backend/models/Bill.js:54-64 | Bills numbered one after another never share an invoice number |
| BillModel.InvoiceCounters.constructor | backend/models/InvoiceCounter.js:4-7 | No counters exist initially |
| BillModel.InvoiceCounters.NumberOnSave | backend/models/Bill.js:51-65 | A bill that already has an invoice number keeps it and counters are untouched; otherwise the year's counter advances and the number is formatted from it |
| Billing.MethodOf | backend/controllers/billingController.js:36 | A missing or empty method becomes CASH; a given value is kept when it is one of the four enum spellings |
| Billing.RequestError | backend/controllers/billingController.js:20-46 | 400 for a missing table name or missing or empty items; otherwise the request is accepted iff every line has a name and numeric price and quantity and the total and method are valid (else a 500) |
| Billing.CleanItems | backend/controllers/billingController.js:25-29 | Same length and order; each line keeps only name, price and quantity |
| Billing.NewBill | backend/controllers/billingController.js:31-44 | Status PENDING whatever was sent; total taken from the caller; defaults `relatedOrders` [], method CASH, discount 0, serviceCharge 0, customerName "" |
| Billing.NextInvoiceIsFresh | backend/models/Bill.js:54-64 | When every stored number is accounted for by its year's counter, the next number of a year differs from all stored numbers |
| Billing.AdvanceKeepsCounted | backend/models/Bill.js:61-62 | Advancing a counter keeps every stored number accounted for |
| Billing.AppendFreshInvoice | backend/models/Bill.js:54-64 | Storing a bill numbered from the just-advanced counter keeps every stored number counted and all numbers distinct |
| Billing.BillLedger.constructor | backend/controllers/billingController.js:7-57 | An empty ledger over given counters is well formed |
| Billing.BillLedger.CreateBill | backend/controllers/billingController.js:7-57 | A refused request stores nothing and leaves the counters alone; an accepted one advances the year's counter by one and appends exactly one PENDING bill with the new invoice number; invoice numbers stay unique |
| Billing.BillLedger.AllBills | backend/controllers/billingController.js:62-69 | Every bill exactly once, newest first by `createdAt` |
| Billing.FindBill | backend/controllers/billingController.js:76-80 | A bill with the id, or none when no bill has it |
| Billing.BillLedger.MarkBillPaid | backend/controllers/billingController.js:74-89 | Unknown id is a 404 changing nothing; otherwise only that bill's status becomes PAID, from any prior status |
| History.Window | backend/controllers/historyController.js:32-84 | The date constraint: a named range is [start, now] inclusive; "custom" is [from, to] only with both bounds; anything else is no constraint |
| History.BuildFilter | backend/controllers/historyController.js:11-84 | The built filter matches a bill exactly when status and payment agree (unless absent or "ALL"), a non-empty search occurs case-insensitively in invoice number, table or customer name, and the date window holds |
| History.Selected | backend/controllers/historyController.js:86 | `find(filter)`: exactly the matching bills, each as often as stored |
| History.HistoryBills | backend/controllers/historyController.js:7-93 | Exactly the wanted bills, each as often as stored, in descending `createdAt` |
| History.SummaryFilter | backend/controllers/historyController.js:102-154 | The summary considers exactly the PAID bills in the date window |
| History.ItemStats | backend/controllers/historyController.js:164-171 | One entry per distinct item name in first-seen order, with the summed quantity of that name |
| History.ItemStatsEmpty | backend/controllers/historyController.js:164-171 | There are no statistics exactly when there are no item lines |
| History.BestItemIsFirstMax | backend/controllers/historyController.js:173-174 | The best item has the largest summed quantity, the earliest such entry on ties, and is "-" with no entries |
| History.Lines | backend/controllers/historyController.js:166-167 | Every line of every selected bill is included |
| History.HistorySummary | backend/controllers/historyController.js:98-187 | Over the selected PAID bills: revenue is their total, orders their count, average revenue/count or 0 with no bills, best item as above |
| History.DayMonotone | backend/controllers/historyController.js:199 | A later instant is never on an earlier UTC day |
| History.SortedDaysAscending | backend/controllers/historyController.js:194 | Bills in ascending `createdAt` have ascending days |
| History.TrendDaysCover | backend/controllers/historyController.js:196-202 | The trend's days are exactly the days of the PAID bills |
| History.HistoryTrend | backend/controllers/historyController.js:192-214 | One point per UTC day of the PAID bills, strictly ascending, each with that day's summed bill totals |
| Tables.NewTable | backend/controllers/tableController.js:31-36 | A new table is FREE with 0 customers and no `activeSince`, whatever the body says; other fields come from the body or the schema defaults |
| Tables.TableStore.AddTable | backend/controllers/tableController.js:29-43 | A body without a name fails validation and stores nothing; otherwise exactly that table is appended |
| Tables.Cleared | backend/controllers/tableController.js:75-78 | Status FREE, customers 0, `activeSince` and `lastBillId` null; name, capacity, waiter and auto-clear flag unchanged |
| Tables.ClearedIdempotent | backend/controllers/tableController.js:75-78 | Clearing a cleared table changes nothing |
| Tables.TableStore.ClearTable | backend/controllers/tableController.js:70-93 | Unknown id is a 404 changing nothing; otherwise only that table is cleared (the controller function has no route) |
| Tables.LatestBillIsLatest | backend/controllers/tableController.js:17-19 | The table's bill with the latest `createdAt`, none exactly when the table has no bill |
| Tables.TableStore.GetTables | backend/controllers/tableController.js:7-26 | Every table exactly once, sorted by name, each with its latest bill |
| Suppliers.Owed | backend/controllers/supplierController.js:72-77 | A purchase owes all of its total when "Pending", half when "Partially Paid", nothing otherwise |
| Suppliers.Purchased | backend/controllers/supplierController.js:61-77 | One history entry appended; last order amount and status set; total purchased and outstanding grow as above; nothing else changes |
| Suppliers.PurchaseKeepsTotalInStep | backend/controllers/supplierController.js:61-69 | The running purchase total and the recorded history grow by the same amount |
| Suppliers.SupplierBook.AddPurchase | backend/controllers/supplierController.js:52-93 | Unknown supplier is a 404 and a status outside the enum a 500, both changing nothing; otherwise only that supplier changes, by exactly one purchase |
| Suppliers.Settle | backend/controllers/supplierController.js:104-111 | Balance max(old − paid, 0): "Paid" with 0 when nothing is left, else "Partially Paid" with the remainder; never negative |
| Suppliers.PaymentsCompose | backend/controllers/supplierController.js:104-111 | Two non-negative payments settle like one payment of their sum |
| Suppliers.PaymentNeverRaisesBalance | backend/controllers/supplierController.js:104-111 | A non-negative payment never raises the balance |
| Suppliers.SupplierBook.PaySupplier | backend/controllers/supplierController.js:96-126 | Unknown supplier is a 404 changing nothing; otherwise only balance and status change, as settled |
| Suppliers.SupplierBook.Listing | backend/controllers/supplierController.js:7 | Every supplier exactly once, by name ascending |
| Suppliers.SupplierBook.constructor | backend/models/Supplier.js:3-52 | No suppliers initially |
| Employees.AttendanceStatus | backend/models/Employee.js:9-13 | An absent status defaults to "Present"; a given one is accepted iff it is one of the four enum values |
| Employees.CalculateHours | backend/controllers/employeeController.js:102-107 | Hours between check-in and check-out, clamped at 0 and never negative; none when a time is missing |
| Employees.Staff.MarkAttendance | backend/controllers/employeeController.js:58-77 | Unknown employee is a 404 and an invalid status a 500, both changing nothing; otherwise exactly one record is appended and earlier records are unchanged |
| Employees.Staff.MarkCheckout | backend/controllers/employeeController.js:80-99 | 404 for an unknown employee, 400 without records; otherwise only the last record gets its check-out time and non-negative hours |
| Employees.Staff.Listing | backend/controllers/employeeController.js:7 | Every employee exactly once, by name ascending |
| Employees.Staff.constructor | backend/models/Employee.js:18-65 | No employees initially; every recorded hour count is non-negative |
| Inventory.NewStockItem | backend/controllers/inventoryController.js:11-17 | The created record carries the given fields, with reorder level defaulting to 5 |
| Inventory.StockRoom.AddInventoryItem | backend/controllers/inventoryController.js:3-23 | A missing or falsy required field (quantity 0 included) is a 400 storing nothing; otherwise exactly one record is added, and it joins the low-stock list exactly when it is low |
| Inventory.StockRoom.GetInventory | backend/controllers/inventoryController.js:25-32 | Every record, unfiltered |
| Inventory.LowStock | backend/controllers/inventoryController.js:36-38 | Exactly the records with quantity at or below the reorder level, each as often as stored |
| Inventory.LowStockAppend | backend/controllers/inventoryController.js:36-38 | Adding a record extends the low-stock list by it exactly when it is low |
| Inventory.StockRoom.LowStockItems | backend/controllers/inventoryController.js:34-44 | Exactly the stored records at or below their reorder level |
| Inventory.StockRoom.constructor | backend/models/Inventory.js:3-12 | No records initially |
| Cart.ItemKey | frontend/src/context/CartContext.jsx:21-24 | The key is the id, "::" and the lower-cased variant, "regular" by default |
| Cart.KeyIgnoresCase | frontend/src/context/CartContext.jsx:21-24 | Variants differing only in letter case share a key |
| Cart.KeyDeterminesItem | frontend/src/context/CartContext.jsx:21-24 | For ids without a colon, equal keys mean the same id and the same lower-cased variant |
| Cart.BumpFacts | frontend/src/context/CartContext.jsx:50-62 | Adding a unit keeps one entry per key with quantities at least 1, adds exactly one unit, and adds an entry only for a new key |
| Cart.BumpQuantity | frontend/src/context/CartContext.jsx:50-62 | The key's quantity rises by exactly one, from 0 when absent |
| Cart.DropQuantity | frontend/src/context/CartContext.jsx:85-94 | The key's quantity falls by one, never below 0 |
| Cart.DropFacts | frontend/src/context/CartContext.jsx:85-94 | Removing a unit keeps one entry per key with quantities at least 1 and removes a unit exactly when the key was present |
| Cart.DeleteFacts | frontend/src/context/CartContext.jsx:151-153 | After `delete` the key is gone and every other entry is kept |
| Cart.DropUndoesBump | frontend/src/context/CartContext.jsx:50-94 | Removing the unit just added gives back the same item object |
| Cart.ReplaceByIdAt | frontend/src/context/CartContext.jsx:45-47 | With distinct batch ids the map by id replaces only that batch |
| Cart.AddedToOpenShape | frontend/src/context/CartContext.jsx:32-48 | The add goes to the first unconfirmed batch, or to a new unconfirmed batch only when none exists; confirmed batches are untouched |
| Cart.AddedToOpenValid | frontend/src/context/CartContext.jsx:32-62 | After `addToCart` a table still has at most one unconfirmed batch and distinct batch ids, with every quantity at least 1 |
| Cart.AddedByAdminShape | frontend/src/context/CartContext.jsx:127-138 | An admin add lands in the last batch when confirmed, else in a new confirmed batch, and never touches an unconfirmed batch |
| Cart.AddedByAdminValid | frontend/src/context/CartContext.jsx:119-141 | Admin adds keep the batches well formed |
| Cart.RemovedFromOpenFacts | frontend/src/context/CartContext.jsx:77-98 | Removing keeps the batches well formed and confirmed batches as they were |
| Cart.RemoveUndoesAdd | frontend/src/context/CartContext.jsx:27-102 | `removeFromCart` after `addToCart` of the same item, with a batch open, restores the batches |
| Cart.DeletedEverywhereFacts | frontend/src/context/CartContext.jsx:151-153 | After the admin removal no batch holds the key, every other entry is kept, and the batches stay well formed |
| Cart.CartState.constructor | frontend/src/context/CartContext.jsx:160-163 | A fresh or reset cart has no table |
| Cart.CartState.AddToCart | frontend/src/context/CartContext.jsx:27-66 | The table entry is created if absent and one unit of the item goes to its open batch; the cart stays well formed when a new batch id is unused |
| Cart.CartState.RemoveFromCart | frontend/src/context/CartContext.jsx:69-102 | Unknown table, no open batch or absent key change nothing; otherwise one unit fewer in the open batch |
| Cart.CartState.ConfirmOrder | frontend/src/context/CartContext.jsx:105-116 | Only the first unconfirmed batch becomes confirmed; unknown tables change nothing; afterwards the table has no open batch |
| Cart.CartState.AddItemByAdmin | frontend/src/context/CartContext.jsx:119-142 | Unknown table changes nothing; otherwise the unit goes into a confirmed last batch or a new confirmed batch |
| Cart.CartState.RemoveItemByAdmin | frontend/src/context/CartContext.jsx:145-157 | Unknown table changes nothing; otherwise the key is deleted from every batch of that table |
| Cart.CartState.ClearTable | frontend/src/context/CartContext.jsx:166-174 | Only that table's entry disappears |
| Cart.CartState.ResetAllOrders | frontend/src/context/CartContext.jsx:160-163 | Every table's entry disappears |
| MenuPage.CompareIsRankOrder | frontend/src/pages/MenuPage.jsx:113-122 | The comparator orders variants small < medium < large < any other size, and is the ordering of that rank |
| MenuPage.GroupOfFacts | frontend/src/pages/MenuPage.jsx:101-123 | A card's variants are exactly the items of its (category, name) key, stably sorted by size rank, and its base is the first such item |
| MenuPage.GroupedMenu | frontend/src/pages/MenuPage.jsx:101-126 | One card per distinct (category, name) pair in order of first appearance, each as described by `GroupOf` |
| MenuPage.EachItemInOneGroup | frontend/src/pages/MenuPage.jsx:104-110 | Every item is a variant of its own card and of no other |
| MenuPage.FilteredGroups | frontend/src/pages/MenuPage.jsx:129-134 | A card is shown iff its category equals the selection (or "All") and its base name contains the search, ignoring case |
| MenuPage.EverythingShownByDefault | frontend/src/pages/MenuPage.jsx:129-134 | With "All" and an empty search every card is shown |
| MenuPage.CurrentVariant | frontend/src/pages/MenuPage.jsx:190-202 | None without variants; the first variant when nothing is selected or nothing matches; otherwise the first variant of the selected size |
| MenuPage.CartTotals | frontend/src/pages/MenuPage.jsx:137-149 | Units and amount of the table's open batch, both 0 without one |
| MenuPage.AddRaisesTotalItems | frontend/src/pages/MenuPage.jsx:141-144 | A tap on "add" raises the cart bar's unit count by one |
| MenuPage.VariantKey | frontend/src/pages/MenuPage.jsx:354-356 | The page's variant key is the cart's item key |
| MenuPage.AddRaisesBadge | frontend/src/pages/MenuPage.jsx:354-358 | Adding the shown variant raises its badge by one |
| ConfirmOrder.ActiveBatch | frontend/src/pages/ConfirmOrder.jsx:41 | The first unconfirmed batch; none exactly when all are confirmed |
| ConfirmOrder.ConfirmedBatches | frontend/src/pages/ConfirmOrder.jsx:42 | Exactly the confirmed batches |
| ConfirmOrder.TotalSplits | frontend/src/pages/ConfirmOrder.jsx:44-55 | The table total is the confirmed batches' total plus the open batches' total |
| ConfirmOrder.ItemPayload | frontend/src/pages/ConfirmOrder.jsx:61-67 | Name, price, quantity, subCategory or null, `menuItem` = `_id` |
| ConfirmOrder.Payload | frontend/src/pages/ConfirmOrder.jsx:61-67 | One payload line per cart item, in order |
| ConfirmOrder.PayloadStorable | frontend/src/pages/ConfirmOrder.jsx:60-73 | The ledger stores the payload iff every dish has a name |
| ConfirmOrder.Confirmed | frontend/src/pages/ConfirmOrder.jsx:76 | The local confirm flips the open batch only, keeping ids and items |
| ConfirmOrder.ConfirmedHasNoOpen | frontend/src/pages/ConfirmOrder.jsx:76 | With at most one open batch, confirming leaves none open |
| ConfirmOrder.HandleConfirm | frontend/src/pages/ConfirmOrder.jsx:58-84 | A request is sent iff the open batch has items; a refused request leaves the cart and the orders as they were; an accepted one stores the open batch's payload as a new confirmed batch of the table's unserved order, or as the only batch of a new order, answers with that order, and then confirms the open batch locally |
| AdminPage.RawItemsMembers | frontend/src/pages/Admin.jsx:133 | Flattening keeps exactly the items of the batches |
| AdminPage.RawItemsTotal | frontend/src/pages/Admin.jsx:96-102 | The flattened items add up to `calcTotal` |
| AdminPage.BillLines | frontend/src/pages/Admin.jsx:135-139 | One bill line per item, carrying its name, price and quantity |
| AdminPage.BillRequestFor | frontend/src/pages/Admin.jsx:141-153 | The request names the table, lists `[orderId]`, is PENDING, and totals to `calcTotal` of the order |
| AdminPage.BillRequestAccepted | frontend/src/pages/Admin.jsx:147-153 | The bill service accepts it iff the table is named, the order has items and each item has a name |
| AdminPage.Unlisted | frontend/src/pages/Admin.jsx:156 | The list without exactly that order |
| AdminPage.HandleServeSingleTable | frontend/src/pages/Admin.jsx:127-161 | Marks the order served (only that order changes), then raises one PENDING bill for the table and `[orderId]` with the order's `calcTotal` and, line by line in batch order, each item's name, price and quantity, with the next invoice number of the year, whose counter advances by one, then drops only that order from the list; an unknown order changes nothing and a refused bill leaves the order served, unbilled and listed, with the counters as they were |
| AdminPage.FilteredMenu | frontend/src/pages/Admin.jsx:105-122 | Kept iff not marked unavailable, in the selected category ignoring case (or "All"), and with a blank search or one found in name, size or category |
| AdminPage.FindsByOwnName | frontend/src/pages/Admin.jsx:105-122 | Searching an available dish's own name in its own category finds it |
| AdminPage.AddDishPayload | frontend/src/pages/Admin.jsx:182-187 | Name and price of the dish, its size or "", quantity 1 |
| AdminPage.AddDishStored | frontend/src/pages/Admin.jsx:178-188 | The stored dish is one unit, and "" comes back as no size |
| AdminPage.HandleAddDish | frontend/src/pages/Admin.jsx:178-193 | Nothing is sent without an order id or item; an unknown order is a 404 and, when the order has batches, a nameless dish a 500, both changing nothing; otherwise one unit of the dish is appended to the order's last batch, or, when the order has no batch, one new empty confirmed batch is stored and the dish is lost; no other order or order field changes |
| AdminBilling.PendingBills | frontend/src/pages/AdminBilling.jsx:25-27 | Exactly the PENDING bills, each as often as listed |
| AdminBilling.GroupName | frontend/src/pages/AdminBilling.jsx:48 | The table name, or "Unknown Table" without one |
| AdminBilling.MergeKeys | frontend/src/pages/AdminBilling.jsx:61-70 | Merged lines have distinct keys, and every line's key has a merged line |
| AdminBilling.MergeFromLines | frontend/src/pages/AdminBilling.jsx:61-70 | Each merged line has the name and price of some bill line |
| AdminBilling.MergeQuantities | frontend/src/pages/AdminBilling.jsx:61-70 | Each merged line's quantity is the total ordered under its key |
| AdminBilling.MergeKeepsAmount | frontend/src/pages/AdminBilling.jsx:73-78 | When each key has one price, the merged amount equals the lines' amount |
| AdminBilling.MergeByPriceKeepsAmount | frontend/src/pages/AdminBilling.jsx:61-78 | Keyed by name and price, the card's total always equals the bills' lines |
| AdminBilling.MergeByNameLosesSizePrice | frontend/src/pages/AdminBilling.jsx:61-78 | As written, two sizes of one dish collapse onto the first size's price and the card under-charges |
| AdminBilling.MergeItems | frontend/src/pages/AdminBilling.jsx:61-70 | The page's merge loop, keyed by item name: one line per name, covering every line, each carrying the whole quantity of its name; the merged amount equals the lines' amount when each name has one price |
| AdminBilling.CardFacts | frontend/src/pages/AdminBilling.jsx:47-86 | The page's card holds exactly its table's bills and one line per item name with that name's whole quantity; its total equals the bills' lines when each name has one price |
| AdminBilling.CardLosesSizePrice | frontend/src/pages/AdminBilling.jsx:61-78 | As written, one bill with a 100 and a 150 "Coffee" gets the card `[Coffee 100 × 2]` totalling 200 while its lines total 250 |
| AdminBilling.CardByPriceFacts | frontend/src/pages/AdminBilling.jsx:47-86 | The intended card, merged by name and unit price, holds exactly its table's bills, one line per (name, price), and always totals the bills' lines |
| AdminBilling.CardsPartition | frontend/src/pages/AdminBilling.jsx:47-59 | Every bill is on exactly one card |
| AdminBilling.GroupedBills | frontend/src/pages/AdminBilling.jsx:44-87 | One card per table in order of the table's first bill, each card as the page builds it (`CardOf`: lines merged by name) |
| AdminBilling.PayAllKeepsIds | frontend/src/pages/AdminBilling.jsx:165-169 | Paying changes only statuses |
| AdminBilling.PayAllMarksExactly | frontend/src/pages/AdminBilling.jsx:165-169 | With distinct ids exactly the card's bills become PAID |
| AdminBilling.FindAfterPay | frontend/src/pages/AdminBilling.jsx:165-169 | A bill id is found after paying exactly when it was found before |
| AdminBilling.OtherTables | frontend/src/pages/AdminBilling.jsx:172 | Exactly the listed bills of other tables |
| AdminBilling.HandlePrintAndPay | frontend/src/pages/AdminBilling.jsx:163-183 | Each of the card's bills gets its paid request; if all ids are known, the table's bills leave the list and its cart entry is cleared; otherwise list and cart are unchanged |
| AdminHistory.ItemRows | frontend/src/pages/AdminHistory.jsx:128-135 | One row per item name in first-seen order, with summed quantity and summed quantity × price |
| AdminHistory.ItemRowsDistinct | frontend/src/pages/AdminHistory.jsx:128-135 | The rows name no item twice |
| AdminHistory.TopItemsAreBest | frontend/src/pages/AdminHistory.jsx:147-154 | At most five rows (min(5, names)), each a real item's sums, non-increasing quantity, no name twice, and every excluded item sold no more than any listed one |
| AdminHistory.TopOrdered | frontend/src/pages/AdminHistory.jsx:153-154 | The top rows run from the largest quantity down |
| AdminHistory.TopExcluded | frontend/src/pages/AdminHistory.jsx:153-154 | A row that missed the cut sold no more than any top row |
| AdminHistory.SortedDays | frontend/src/pages/AdminHistory.jsx:156-157 | Sorting distinct days gives them strictly ascending and keeps them all |
| AdminHistory.DailyTrend | frontend/src/pages/AdminHistory.jsx:137-158 | One point per day of the bills, strictly ascending, each with that day's summed bill amounts |
| AdminHistory.Average | frontend/src/pages/AdminHistory.jsx:145 | 0 without bills, otherwise the amount that times the count gives the revenue |
| AdminHistory.Revenue | frontend/src/pages/AdminHistory.jsx:117-125 | The summed amount of all listed bills |
| AdminHistory.BestSellers | frontend/src/pages/AdminHistory.jsx:128-154 | The item-statistics pass and the sort compute the top five |
| AdminHistory.Recompute | frontend/src/pages/AdminHistory.jsx:116-167 | Revenue over all listed bills, their count, the average, the top items and the daily trend, as above |
| LegacyOrder.Find | frontend/src/pages/Order.jsx:41 | The first entry with the dish id, or none |
| LegacyOrder.HandleAdd | frontend/src/pages/Order.jsx:39-49 | No table selected: nothing changes; otherwise the dish's quantity rises by one (new entry with 1 when absent) and other dishes' entries are unchanged |
| LegacyOrder.AddKeepsValid | frontend/src/pages/Order.jsx:39-49 | One entry per dish with at least one unit is kept |
| LegacyOrder.HandleMinus | frontend/src/pages/Order.jsx:51-61 | Fails exactly when the dish is not in the cart; at quantity 1 its entry goes, otherwise its quantity falls by one; other dishes are unchanged |
| LegacyOrder.MinusKeepsValid | frontend/src/pages/Order.jsx:51-61 | One entry per dish with at least one unit is kept |
| LegacyOrder.HandleDelete | frontend/src/pages/Order.jsx:63 | Exactly the dish's entries go; the rest keep their order |
| LegacyOrder.DeleteKeepsValid | frontend/src/pages/Order.jsx:63 | One entry per dish with at least one unit is kept |
| LegacyOrder.AddTotals | frontend/src/pages/Order.jsx:65-68 | "+" adds one unit and the dish's price to the totals |
| LegacyOrder.MinusTotals | frontend/src/pages/Order.jsx:65-68 | "-" takes one unit and the entry's price off the totals |
| LegacyOrder.DeleteTotals | frontend/src/pages/Order.jsx:65-68 | The bin takes exactly the dish's units and cost off the totals |
| LegacyOrder.MinusUndoesAdd | frontend/src/pages/Order.jsx:39-61 | "-" right after "+" gives back the cart |
| MigrateImages.KeepKept | backend/scripts/migrateImages.js:54 | Only a-z and 0-9 remain |
| MigrateImages.Normalize | backend/scripts/migrateImages.js:51-55 | The output has only a-z and 0-9 and is no longer than the input |
| MigrateImages.NormalizeIdempotent | backend/scripts/migrateImages.js:51-55 | Normalising twice is normalising once |
| MigrateImages.NormalizeIgnoresCase | backend/scripts/migrateImages.js:52-54 | Letter case does not matter |
| MigrateImages.NormalizeAppend | backend/scripts/migrateImages.js:52-54 | Normalising piecewise is normalising the whole |
| MigrateImages.NormalizeSkips | backend/scripts/migrateImages.js:52-54 | Punctuation and spaces are ignored |
| MigrateImages.MatchOf | backend/scripts/migrateImages.js:64-73 | The first file whose normalised stem equals the normalised name; none when no file does |
| MigrateImages.FindImage | backend/scripts/migrateImages.js:64-73 | The search loop with its `break` finds that first match |
| MigrateImages.Migrate | backend/scripts/migrateImages.js:60-96 | The main loop produces the planned updates |
| MigrateImages.PlannedFacts | backend/scripts/migrateImages.js:75-93 | Every update is for a matched item and carries its upload URL; every matched item has its update |
| MigrateImages.UnmatchedSkipped | backend/scripts/migrateImages.js:75-78 | An item without a match is not updated |
| MigrateImages.UpdatedOnce | backend/scripts/migrateImages.js:89-93 | With distinct menu ids no item is updated twice |
| Sorting.SortByKey | backend/routes/orderRoutes.js:55 | Sorted ascending, a permutation, and stable: equal-key elements keep their order |
| Sorting.SortByText | backend/controllers/supplierController.js:7 | Sorted by the string key, and a permutation |
| Grouping.GroupSum | backend/controllers/historyController.js:164-171 | The keys in first-seen order, each with the sum over its elements |
| Grouping.GroupLists | frontend/src/pages/AdminBilling.jsx:47-59 | The keys in first-seen order, each with its elements in order |
| Grouping.GroupsPartition | frontend/src/pages/AdminBilling.jsx:47-59 | The group sizes add up to the number of elements |
| Base.IncludesIgnoreCase | backend/controllers/historyController.js:26-28 | Case-insensitive matching of literal text is containment after lower-casing |

## Left out

- Persistence, Express routing, axios transport and `backend/config/db.js`
  are not modelled. The document stores are sequences in memory. A failed
  save, a connection error and a malformed ObjectId are not modelled.
- OrderLedger.OrderStore.AddItem: in the fallback where no batch exists,
  the item is pushed onto a plain object after that object was pushed into
  the batch array (backend/routes/orderRoutes.js:99-107). Mongoose casts
  the pushed object into a new subdocument with its own `items` array, so
  the model stores an empty confirmed batch, answers 200 with the order, and
  neither stores nor validates the item. Mongoose's casting itself is not
  part of this model.
- The `activeOrders` annotation of `getTables`
  (backend/controllers/tableController.js:12-15) is not modelled. It
  filters on a `status` field that the order schema lacks, so its result
  depends on Mongoose's `strictQuery` setting.
- Unique indexes on table and supplier names are not enforced.
  `db.js` turns off `autoIndex`, so the model accepts duplicates.
- Invoice numbering is modelled sequentially. The counter is read and then
  written, so concurrent saves could share a number. Uniqueness is proved
  only for one save after another.
- Notifications (`createNotification`), timers (`setTimeout` reloads) and
  the HTML print window are left out, because they have no effect on the
  modelled state. So are `localStorage` load and save and the hard page
  reload after confirming an order.
- `Date` calendar arithmetic is left out. The start of a named history range
  ("today", "week", "month", …) is a parameter, and so are the current time
  and the current year.
- Search text is matched as a literal substring.
  `RegExp` metacharacters in a search are not interpreted.
- Lower-casing covers ASCII letters only. There is no Unicode case folding,
  and `trim` in the admin menu search knows only the ASCII whitespace
  characters.
- Number coercion is left out. `Number(x) || 0` and `Number(...)` on
  non-numeric input are not modelled. Amounts, prices and quantities are
  numbers already; a missing numeric bill field is a rejected line.
  `toFixed` formatting and floating-point rounding are left out, and money
  is `real`.
- AdminHistory.Recompute: every bill is treated as having a `createdAt`,
  because the store always sets it. The `if (bill.createdAt)` skip is
  therefore not modelled.
- `Date.now()` batch ids in the cart are parameters.
  Cart.CartState.AddToCart and Cart.CartState.AddItemByAdmin promise the
  cart invariant only when that id is not already in use.
- LegacyOrder.HandleMinus: pressing "-" for a dish not in the cart throws
  a `TypeError` in the page. The model returns `None` there.
- Menu, category, upload and seed endpoints are left out. They are plain
  create/read/update/delete handlers. So are the order-delay checks of the
  unmounted `orderController.js` and the UI-only pages.
- AdminBilling.HandlePrintAndPay: the paid requests are sent concurrently
  with `Promise.all`. The model sends them one after another and reports
  failure when any id is unknown. Earlier successes stay applied.
- The "Unknown Table" card of AdminBilling cannot arise from stored bills,
  because a bill's table name is required. `GroupName` still models it.
- The JavaScript rule that object keys which look like integers are listed
  first is not modelled. Item names and dates are keys in first-insertion
  order. An item named "12" would be listed earlier in the browser.
- Documents whose sort keys tie (`createdAt`, names) are modelled as keeping
  their stored order. MongoDB does not promise an order among them.
- MenuPage.FilteredGroups compares the card's category with the selection
  exactly, as the code does. Only the search ignores case.
- The legacy order page's fixed list of table names is not modelled; the
  selected table is a string parameter.
- The migration's `path.extname` stem, the directory listing and the upload
  result are parameters. The upload itself and the database update are the
  `Update` records that `Migrate` returns.

## Findings

| source | as written | input that shows it | evidently intended | confidence | as-written member | corrected member |
|---|---|---|---|---|---|---|
| frontend/src/pages/AdminBilling.jsx:61-78 | Merged lines are keyed by item name only; later lines of the same name add their quantity to the first line, whose price is kept, and the card total is price × merged quantity | A table with two pending lines "Coffee" 100 × 1 and "Coffee" 150 × 1 (two sizes): the card shows 2 × 100 = 200 | The printed and paid total equals the sum of the bills' lines, 250; keying by name and price does this | medium, not executed | AdminBilling.CardLosesSizePrice | AdminBilling.CardByPriceFacts |

The page's own cards (`AdminBilling.GroupedBills`, `AdminBilling.CardOf`,
`AdminBilling.MergeItems`) follow the code as written, keyed by name.
`AdminBilling.CardOfByPrice` is the corrected card.
