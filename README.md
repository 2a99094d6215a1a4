# Inventory store model

A Dafny model of the core of an inventory and purchasing tool used by a small organization. The tool tracks:

- a product catalogue;
- purchase orders, which an administrator approves or rejects;
- stock entries, which record goods received against an order. Each entry is "exploded" into one stock unit per unit received;
- stock exits, which mark units as gone, plus their confirmation;
- payment installments.

Modules:

- `InventoryStore` (`inventory_store.dfy`) models the in-memory store in `src/services/api.ts`.
  - The class `Store` holds the five lists: products, orders, stock entries, stock units and stock exits.
  - It has one method per operation. Each method states the failure case, with its message and nothing changed. It also states the success case: the new contents of exactly the lists the operation touches. Field frames (`modifies this`orders`) say that the other lists stay as they were.
  - Beside the class are the specification functions the methods build their records with (`NewOrder`, `Explode`, `MarkExited`, `DashboardOf`, ...). The lemmas about them are the operations' partners: delete undoes create; the dashboard moves by exactly what an entry or an exit adds or removes; an exit record agrees with the units it stamps; the stock stays linked.
  - The links between units, entries and exits (`Types.Linked`) are not a class invariant. Each method's postcondition gives its new lists exactly, and `EntryKeepsLinked`, `ExitKeepsLinked` and `ConfirmKeepsExits` prove, over those lists, that an entry, an exit and a confirmation keep a linked stock linked.
- `StockReport`, `StockConsult` and `OrderPayments` model the read-side projections of three screens. Each is a filter/map/sum chain over the records, modelled as functions with lemmas.
- `MockData` models the seed data as constants. Its lemmas state the seed's internal consistency and the two lookup helpers defined beside it.
- `Types`, `Seqs`, `Text` and `Wrappers` hold the record shapes and the array and string operations the code uses: `filter`, `map`, `reduce`, `find`, `toLowerCase`, `includes`, and number rendering in template literals.

Representation choices:

- Money is integer cents, so 2500.00 is `250000`. Products of a cost and a quantity, and all sums, are exact.
- A `T | null` field is an `Option<T>`.
- Two clocks are parameters. The millisecond clock behind every generated id is `clock: nat`; for the per-unit ids it is a function `itemClock: nat -> nat`, because `Date.now()` is read once per unit. The ISO timestamp is `now: string`.
- The acting user is a parameter. Approvals and confirmations are attributed to the fixed administrator `MockData.AdminUser`.

The store builds the single-product record shapes: the legacy order and legacy stock entry, and stock units without invoice number or exit date. The model uses those shapes. The intended design is richer than what `api.ts` does, and the model follows the code:

- Orders carry one product.
- Entries carry one product and no invoices.
- `createStockEntry` checks neither the order's status nor a quantity cap.
- `createStockExit` does not check that a listed unit is still available. A unit that already left is stamped again with the new exit.
- `confirmStockExit` has no guard against a second confirmation.
- `deleteProduct` always reports success.
- The dashboard's "monthly" figures are all-time sums.
- A negative quantity produces an entry whose total is negative, and no units.

The seed orders and the seed entry are written in the itemized shape: an order with several product lines, and an entry split into invoices. No store operation builds that shape, so those records are modelled only as constants in `MockData`.

## Model

| member | source | states |
|---|---|---|
| `Types.AvailableItems` | src/services/api.ts:389 | the available units are exactly the units whose status is available |
| `Types.StatusPartition` | src/pages/StockConsult.tsx:68-72 | status is two-valued, so the available and exited counts, and their cost sums, add up to the whole list |
| `MockData.MockStockItems` | src/services/mockData.ts:202-214 | the generator yields exactly 50 units |
| `MockData.SeedItems` | src/services/mockData.ts:202-214 | the unit at position `i` is the one generated for `i` |
| `MockData.SeedShape` | src/services/mockData.ts:202-214 | every seed unit is of `prod-1` at 2500.00 from `entry-1`; the first 45 are available with no exit, the last five exited under `exit-1` |
| `MockData.SeedItemIdsDistinct` | src/services/mockData.ts:202-203 | the generated ids `item-1` .. `item-50` are pairwise distinct |
| `MockData.SeedExitIds` | src/services/mockData.ts:211-220 | a generated unit is listed by the seed exit exactly when its index is at least 45 |
| `MockData.SeedListedByIndex` | src/services/mockData.ts:211-220 | the seed exit lists the unit at position `i` exactly when `i` is one of the last five |
| `MockData.SeedExitListed` | src/services/mockData.ts:217-220 | the units the seed exit lists are the last five generated ones |
| `MockData.SeedExitConsistent` | src/services/mockData.ts:217-235 | the seed exit's units are exited under its id; its quantity 5 is their number and the list's length; its cost is 5 x 2500.00 |
| `MockData.SeedAvailable` | src/services/mockData.ts:211-213 | the available seed units are the first 45, worth 45 x 2500.00 |
| `MockData.AvailableSeedItems` | src/services/mockData.ts:261-262 | `getAvailableStockItems` returns only seed units that are available |
| `MockData.SeedItemsByProduct` | src/services/mockData.ts:264-265 | `getStockItemsByProduct(p)` returns only available seed units of product `p` |
| `MockData.SeedItemsByProductCount` | src/services/mockData.ts:264-265 | `prod-1` has 45 available seed units; every other product has none |
| `MockData.SeedDashboardConsistent` | src/services/mockData.ts:245-252 | the seed dashboard figures are the seed's own: 4 products, 1 pending order, 45 available units and their value, and the entry and exit totals |
| `MockData.SeedOrdersConsistent` | src/services/mockData.ts:75-160 | every seed order line is priced at cost x quantity; each order's total is the sum of its lines (36000 + 19000 = 55000); each order's status is its lines' common status |
| `MockData.SeedEntryTotals` | src/services/mockData.ts:163-242 | the seed entry's total matches its invoice and line; its 3 installments are numbered 1..3, name the entry, and sum to 125000.00 |
| `MockData.SeedEntryUnits` | src/services/mockData.ts:189-214 | exactly `totalQuantity` seed units come from the seed entry, at the line's adjusted cost, summing to the entry total |
| `MockData.SeedUnitsLinked` | src/services/mockData.ts:202-235 | each seed unit, by position, names `entry-1`, and names `exit-1` exactly when it has exited |
| `MockData.SeedLinked` | src/services/mockData.ts:202-235 | every seed unit names the seed entry; exited units, and only they, name the seed exit |
| `InventoryStore.NewProduct` | src/services/api.ts:130-135 | the created product is the caller's fields with id `prod-<clock>` and both timestamps set to `now` |
| `InventoryStore.Merge` | src/services/api.ts:146 | the spread update: each field present in the patch wins, the others are kept, and `updatedAt` is always `now` |
| `InventoryStore.WithoutProduct` | src/services/api.ts:152 | the delete filter: the products whose id differs, in order |
| `InventoryStore.FindProduct` | src/services/api.ts:121 | `find` answers nothing exactly when no product has the id, and otherwise the first product with it |
| `InventoryStore.DeleteProductRemoves` | src/services/api.ts:150-154 | after a delete, a product remains exactly when it was there and had another id; no product keeps the id; the others keep their order |
| `InventoryStore.DeleteUnknownProduct` | src/services/api.ts:150-154 | deleting an id no product has leaves the catalogue unchanged |
| `InventoryStore.DeleteUndoesCreate` | src/services/api.ts:128-154 | deleting a product just created under a fresh id restores the catalogue |
| `InventoryStore.UpdateThenFind` | src/services/api.ts:140-148 | after an update that keeps the id, the lookup finds the merged record with `updatedAt` refreshed |
| `InventoryStore.MergeIdempotent` | src/services/api.ts:146 | applying the same partial update twice is applying it once |
| `InventoryStore.NewOrder` | src/services/api.ts:187-203 | the created order: id `order-<clock>`, the product's name, supplier and cost, total = cost x quantity, created by the actor, pending and unapproved |
| `InventoryStore.Approve` | src/services/api.ts:214-219 | the approved order: status approved, approver set to the administrator, every other field kept |
| `InventoryStore.Reject` | src/services/api.ts:229 | the rejected order: status rejected, every other field kept, the approver fields included |
| `InventoryStore.FindOrder` | src/services/api.ts:167 | `find` on orders answers nothing exactly when the id is unknown, and otherwise the first order with it |
| `InventoryStore.PendingCount` | src/services/api.ts:392 | the pending count never exceeds the number of orders |
| `InventoryStore.CreateOrderAddsPending` | src/services/api.ts:187-204 | creating an order raises the pending count by one |
| `InventoryStore.SettleOrderPending` | src/services/api.ts:208-231 | approving or rejecting an order lowers the pending count by one if the order was pending, and otherwise leaves it unchanged |
| `InventoryStore.RejectKeepsApprover` | src/services/api.ts:214-229 | rejecting after approving leaves the administrator as approver |
| `InventoryStore.NewEntry` | src/services/api.ts:258-276 | the created entry: id `entry-<clock>`, the order's product fields and cost, total = cost x quantity, created by the actor, approved by the administrator |
| `InventoryStore.Explode` | src/services/api.ts:281-291 | the units generated for an entry, unit `i` with id `item-<ms>-<i>`, available, with no exit |
| `InventoryStore.UnitsReceived` | src/services/api.ts:281 | the number of units generated is the quantity, or zero for a negative quantity |
| `InventoryStore.ItemIdInjective` | src/services/api.ts:282 | two unit indices that produce the same id string are equal, whatever the clock reads |
| `InventoryStore.ExplodeUnits` | src/services/api.ts:281-291 | an entry yields one unit per unit received; each unit is available, has no exit, names the entry, and has the order's product and cost |
| `InventoryStore.ExplodedIdsDistinct` | src/services/api.ts:281-282 | the units of one entry have pairwise distinct ids |
| `InventoryStore.EntryRaisesStock` | src/services/api.ts:281-293 | an entry raises the available count by the units received and the stock value by cost x units |
| `InventoryStore.EntryKeepsLinked` | src/services/api.ts:278-293 | after an entry, every unit still names a recorded entry, and exited units still name a recorded exit |
| `InventoryStore.MatchesFilters` | src/services/api.ts:307-312 | a unit passes a present status filter by its status and a present, non-empty product filter by its product |
| `InventoryStore.QueryStockItems` | src/services/api.ts:300-315 | no status filter and an absent or empty product id return every unit; the answer is never longer than the list |
| `InventoryStore.QueryMembership` | src/services/api.ts:305-312 | a unit is returned exactly when it is stored and matches the status filter and the (non-empty) product filter |
| `InventoryStore.QuerySublist` | src/services/api.ts:305-312 | the answer keeps the stored order |
| `InventoryStore.Listed` | src/services/api.ts:333 | the units an exit lists: the stored units whose id the request names, in store order |
| `InventoryStore.NewExit` | src/services/api.ts:339-355 | the created exit: id `exit-<clock>`, the requested ids, the first listed unit's product and entry date, the listed units' count and cost sum, created by the actor, unconfirmed |
| `InventoryStore.MarkExited` | src/services/api.ts:360-364 | the stamp: a unit whose id the exit names becomes exited under the exit's id; the others are kept |
| `InventoryStore.ListedMembers` | src/services/api.ts:333 | the matched units are exactly the stored units whose id is listed |
| `InventoryStore.MarkExitedEffect` | src/services/api.ts:359-364 | the list keeps its length; every listed unit becomes exited under the new exit id, whatever its old status; unlisted units are unchanged; only status and exit id ever change |
| `InventoryStore.StampLowers` | src/services/api.ts:359-364 | by induction on the list, stamping lowers the available count and value by those of the listed units that were available |
| `InventoryStore.ExitLowersStock` | src/services/api.ts:359-394 | an exit lowers the available count and the stock value by those of the listed units still available |
| `InventoryStore.StampedAreListed` | src/services/api.ts:333-364 | under a fresh exit id, the units stamped with it match the listed ones in number and cost |
| `InventoryStore.ExitRecordMatchesUnits` | src/services/api.ts:333-364 | the new exit's quantity and total cost are the number and cost of the units stamped with its id |
| `InventoryStore.ExitKeepsLinked` | src/services/api.ts:357-364 | once the exit is recorded, every stamped unit names a recorded exit |
| `InventoryStore.ExitIndex` | src/services/api.ts:371 | `findIndex` on exits is absent exactly when the id is unknown, and otherwise points at the first exit with that id |
| `InventoryStore.Confirm` | src/services/api.ts:375-380 | the confirmed exit: confirmed by the administrator at `now`, every other field kept |
| `InventoryStore.ConfirmTwice` | src/services/api.ts:375-380 | a second confirmation overwrites the first: there is no guard |
| `InventoryStore.ConfirmKeepsExits` | src/services/api.ts:375-396 | confirming keeps every exit id and the all-time exits total |
| `InventoryStore.DashboardOf` | src/services/api.ts:386-400 | the stats count the products, never more pending orders than orders, and the available units, whose count and value plus the exited ones' give the whole list |
| `InventoryStore.DashboardAfterEntry` | src/services/api.ts:243-400 | after an entry, the stats rise by the units received, by their value, and by the entry total; nothing else changes |
| `InventoryStore.DashboardAfterExit` | src/services/api.ts:326-400 | after an exit, the stats fall by the listed units still available and their value, and the exits total rises by the exit's cost; nothing else changes |
| `InventoryStore.Store.constructor` | src/services/api.ts:112-319 | the store starts from the given five lists |
| `InventoryStore.Store.GetProductById` | src/services/api.ts:119-126 | fails with "Produto não encontrado" exactly when the id is unknown, and otherwise returns the first product with that id |
| `InventoryStore.Store.GetOrderById` | src/services/api.ts:165-172 | fails with "Pedido não encontrado" exactly when the id is unknown, and otherwise returns the first order with that id |
| `InventoryStore.Store.CreateProduct` | src/services/api.ts:128-138 | appends exactly the new product, with id `prod-<clock>` and both timestamps |
| `InventoryStore.Store.UpdateProduct` | src/services/api.ts:140-148 | for an unknown id: fails, nothing changes. Otherwise only the first product with the id changes: patched fields win, `updatedAt` is refreshed |
| `InventoryStore.Store.DeleteProduct` | src/services/api.ts:150-154 | always succeeds and keeps exactly the products with another id |
| `InventoryStore.Store.CreateOrder` | src/services/api.ts:174-206 | for an unknown product: fails, orders unchanged. Otherwise appends one pending, unapproved order with the product's fields and total = cost x quantity |
| `InventoryStore.Store.ApproveOrder` | src/services/api.ts:208-221 | for an unknown id: fails, nothing changes. Otherwise only that order changes, to approved by the administrator |
| `InventoryStore.Store.RejectOrder` | src/services/api.ts:223-231 | for an unknown id: fails, nothing changes. Otherwise only that order changes, to rejected, with its approver fields as they were |
| `InventoryStore.Store.CreateStockEntry` | src/services/api.ts:243-296 | for an unknown order: fails, nothing changes. Otherwise appends the entry (total = order cost x quantity); for a quantity above 2^32 - 1 it then rejects with a `RangeError` and adds no units, and otherwise adds exactly the entry's exploded units and succeeds, the lists `EntryKeepsLinked` shows stay linked |
| `InventoryStore.Store.GetStockItems` | src/services/api.ts:300-315 | returns the stored units that match the filters, in stored order |
| `InventoryStore.Store.CreateStockExit` | src/services/api.ts:326-367 | when no listed id matches: fails, nothing changes. Otherwise appends an unconfirmed exit counting and costing the matched units, and stamps every listed unit, the lists `ExitKeepsLinked` shows stay linked |
| `InventoryStore.Store.ConfirmStockExit` | src/services/api.ts:369-382 | for an unknown id: fails, nothing changes. Otherwise only that exit changes, confirmed by the administrator at `now`; every exit keeps its id |
| `InventoryStore.Store.GetDashboardStats` | src/services/api.ts:386-400 | returns the stats of the current lists |
| `StockReport.ReportData` | src/pages/StockReport.tsx:27-37 | the rows are the product rows in product order with the empty ones dropped, so there are never more rows than products and no product has two; every row has a positive quantity |
| `StockReport.RowOf` | src/pages/StockReport.tsx:27-36 | a product's row: its name, supplier, unit type and current cost, with the number and cost sum of its available units |
| `StockReport.GrandTotal` | src/pages/StockReport.tsx:39 | the sum of the rows' values |
| `StockReport.RowCountsAvailableUnits` | src/pages/StockReport.tsx:25-36 | a product's row counts exactly its available units and sums their own costs; the displayed cost is the product's |
| `StockReport.ReportRowsFollowProducts` | src/pages/StockReport.tsx:27-37 | rows follow the product order, and every product with available units has its row |
| `StockReport.GrandTotalOverAllProducts` | src/pages/StockReport.tsx:37-39 | dropping the empty rows does not change the grand total |
| `StockReport.RowsSumCatalogued` | src/pages/StockReport.tsx:27-39 | with distinct product ids, the rows sum to the value of the available units of catalogued products |
| `StockReport.GrandTotalIsCataloguedValue` | src/pages/StockReport.tsx:25-39 | the grand total is the value of the available units whose product is still catalogued; units of deleted products drop out |
| `StockReport.GrandTotalIsStockValue` | src/pages/StockReport.tsx:25-39 | with distinct product ids, and when every available unit's product is catalogued, the grand total is the stock value |
| `StockConsult.MatchesSearch` | src/pages/StockConsult.tsx:58-60 | the lower-cased term occurs in the lower-cased product name or supplier |
| `StockConsult.Shown` | src/pages/StockConsult.tsx:57-66 | a unit is shown when it matches the search, the status selector and the product selector |
| `StockConsult.AvailableCount` | src/pages/StockConsult.tsx:68 | the number of available units in the whole list |
| `StockConsult.ExitedCount` | src/pages/StockConsult.tsx:69 | the number of exited units in the whole list |
| `StockConsult.FilteredItems` | src/pages/StockConsult.tsx:57-66 | the shown units are never more than the units |
| `StockConsult.CountsCoverAllUnits` | src/pages/StockConsult.tsx:68-69 | the available and exited counts add up to the number of units |
| `StockConsult.FilteredItemsSound` | src/pages/StockConsult.tsx:57-66 | shown units keep the list order; a unit is shown exactly when it matches the search, the status selector and the product selector |
| `StockConsult.NoFilterShowsAll` | src/pages/StockConsult.tsx:57-66 | an empty search with both selectors on "all" shows every unit |
| `StockConsult.SearchIgnoresTermCase` | src/pages/StockConsult.tsx:58-60 | lower-casing the search term changes nothing |
| `StockConsult.SearchFindsLiteralMatch` | src/pages/StockConsult.tsx:58-65 | a unit whose name or supplier literally contains the term is shown when it passes the selectors |
| `OrderPayments.EntryFor` | src/pages/OrderPayments.tsx:63-65 | the lookup finds an entry exactly when one has the id, and then it is the first entry with that id |
| `OrderPayments.MatchesSearch` | src/pages/OrderPayments.tsx:76-79 | the installment's entry is found and its lower-cased order number or product name contains the lower-cased term |
| `OrderPayments.MatchesStatus` | src/pages/OrderPayments.tsx:81-85 | 'all' passes everything, 'paid' the installments with a payment date, 'pending' those without |
| `OrderPayments.Shown` | src/pages/OrderPayments.tsx:75-88 | an installment is shown when it matches both the search and the status selector |
| `OrderPayments.TotalPending` | src/pages/OrderPayments.tsx:90-92 | the value of the shown installments whose payment date is null or empty |
| `OrderPayments.TotalPaid` | src/pages/OrderPayments.tsx:94-96 | the value of the shown installments whose payment date is a non-empty string |
| `OrderPayments.FilteredInstallments` | src/pages/OrderPayments.tsx:75-88 | the shown installments are never more than the installments |
| `OrderPayments.OrphansNeverShown` | src/pages/OrderPayments.tsx:75-88 | an installment whose entry is missing is never shown |
| `OrderPayments.FilteredInstallmentsSound` | src/pages/OrderPayments.tsx:75-88 | shown installments keep the list order. A shown installment matches the search: the order number or product name of its entry. Under 'paid' every shown installment has a payment date, under 'pending' none does, and 'all' excludes nothing by status |
| `OrderPayments.TotalsSplitShownValue` | src/pages/OrderPayments.tsx:90-96 | the pending and paid totals add up to the value of what is shown |
| `OrderPayments.PendingViewHasNoPaidTotal` | src/pages/OrderPayments.tsx:81-96 | under 'pending' the paid total is 0 |
| `OrderPayments.PaidViewHasNoPendingTotal` | src/pages/OrderPayments.tsx:81-96 | under 'paid' the pending total is 0, when no payment date is the empty string |
| `OrderPayments.EmptyPaymentDateCountsAsPending` | src/pages/OrderPayments.tsx:81-96 | an installment paid on the empty date is shown under 'paid' yet its value counts as pending |

## Left out

- Authentication and sessions (`getCurrentUser`, `login`, `logout`) read and write browser storage. The acting user is a parameter instead. `user.data?.id || ''` is the user's id, because the current-user call always succeeds.
- The simulated latency (`delay`) and the `async` wrappers add no behaviour. The operations are synchronous.
- Clocks are not modelled. Ids come from `clock`/`itemClock` and timestamps from `now`, all parameters. Two records created in the same millisecond get the same id in the source. The model proves distinctness only among the units of one entry (`ExplodedIdsDistinct`), not across operations.
- Money is a floating-point `number` in the source and integer cents here. Rounding, non-integer quantities (`Array.from` truncates the length), currency formatting and the display-only installment division are not modelled.
- Aliasing is not modelled. `products[index] = …`, `orders[index] = …` and `stockExits[index] = …` overwrite an element of an array that earlier `getProducts`/`getOrders`/`getStockExits` calls handed out. The model keeps lists as values, so a reader of an earlier answer does not see the later write.
- `getProducts`, `getOrders`, `getStockEntries` and `getStockExits` return a list as it is. They are the `Store` fields themselves.
- The store is not built from the seed lists. The source starts from them, but its orders and entry are in the itemized shape, which the store's single-product records cannot hold. `Store.constructor` takes any initial lists. The seed's own consistency is stated in `MockData`.
- `getProductById` and `getOrderById` in `src/services/mockData.ts` are the same first-match lookup as `FindProduct`/`FindOrder`, over the seed lists. They are not modelled separately.
- `getPaymentInstallments` is imported by the payments screen but not defined in `src/services/api.ts`. The installment list is a parameter of that screen's projection. The model takes the screen's entries to be single-product entries, each with an order number and a product name. The store's entries start from the seed entry, which is itemized and has no product name. For it, when its order number does not contain the term, `entry?.productName.toLowerCase()` at src/pages/OrderPayments.tsx:79 throws a `TypeError` that the model does not reproduce.
- `isOverdue` compares against the current clock and is not modelled. Neither are the Excel export and the React rendering and form state.
- Case mapping: `Lower` models `toLowerCase` for ASCII and the Latin-1 capitals only, one character at a time. The Unicode case mapping of characters beyond Latin-1 is not modelled, nor are context-sensitive mappings such as the final sigma.
- StockConsult.SearchFindsLiteralMatch holds for the modelled per-character mapping only. Under `toLowerCase`'s final-sigma rule a name such as "ΟΔΟΣ" contains the term "Σ" while its lower-case form "οδος" does not contain "σ", so that unit is not shown.
- Multi-item orders with per-line approval, invoice-split entries, installment generation, exit deletion, over-receipt caps and availability checks are typed in the source but implemented by no operation, so they are not modelled.
- `StockReport.RowsSumCatalogued` requires distinct product ids. Nothing in the source enforces distinct ids. With a repeated id, the report shows that product's units once per copy.
- `StockReport.GrandTotalIsCataloguedValue` requires distinct product ids, for the same reason.
- `StockReport.GrandTotalIsStockValue` requires distinct product ids, for the same reason.
- `OrderPayments.PaidViewHasNoPendingTotal` requires that no payment date is the empty string. `EmptyPaymentDateCountsAsPending` shows why that requirement is needed.
- Success messages are not modelled. Each operation that succeeds also returns a message ('Produto cadastrado com sucesso!', 'Pedido aprovado!', 'Saída confirmada!', and so on; src/services/api.ts:137, 147, 153, 205, 220, 230, 295, 366, 381). A successful `Result` carries only the data.
