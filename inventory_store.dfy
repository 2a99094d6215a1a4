/**
  The in-memory store behind the inventory screens: five lists (products,
  orders, stock entries, stock units and stock exits) and the operations that
  read and replace them. Every operation either fails with a message and
  leaves the lists as they were, or succeeds and changes exactly the lists it
  names. Ids are built from a millisecond clock reading and timestamps come
  from the ISO clock; both are parameters here, as is the acting user.
 */
module InventoryStore {
  import opened Wrappers
  import opened Seqs
  import opened Text
  import opened Types
  import MockData

  /**
    The failures the store reports, and the `RangeError` that `Array.from`
    throws for a length it cannot allocate, which rejects the operation's
    promise instead of being returned.
   */
  datatype ApiError = ProductNotFound | OrderNotFound | ItemsNotFound | ExitNotFound | InvalidArrayLength
  {
    /** The message the store returns with the failure, or the error's message. */
    function Message(): string
    {
      match this
      case ProductNotFound => "Produto não encontrado"
      case OrderNotFound => "Pedido não encontrado"
      case ItemsNotFound => "Itens não encontrados"
      case ExitNotFound => "Saída não encontrada"
      case InvalidArrayLength => "Invalid array length"
    }
  }

  /** The largest length a JavaScript array can have, 2^32 - 1. */
  const MaxArrayLength: int := 0xFFFF_FFFF

  /** `{ success: true, data }` or `{ success: false, error }`. */
  datatype Result<T> = Ok(value: T) | Err(error: ApiError)

  // ================================================================ products

  /** The fields a caller supplies to create a product. */
  datatype ProductDraft = ProductDraft(name: string, supplier: string, unitCost: Cents, unitType: string)

  /** The product `createProduct` builds: the draft plus id `prod-<clock>` and both timestamps. */
  function NewProduct(d: ProductDraft, clock: nat, now: string): Product
  {
    Product("prod-" + NatToString(clock), d.name, d.supplier, d.unitCost, d.unitType, now, now)
  }

  /** A `Partial<Product>`: `Some` for each field present in the update. */
  datatype ProductPatch = ProductPatch(
    id: Option<string>,
    name: Option<string>,
    supplier: Option<string>,
    unitCost: Option<Cents>,
    unitType: Option<string>,
    createdAt: Option<string>,
    updatedAt: Option<string>)

  /** `{ ...p, ...patch, updatedAt: now }`: present fields win, `updatedAt` is always refreshed. */
  function Merge(p: Product, patch: ProductPatch, now: string): Product
  {
    Product(
      patch.id.GetOr(p.id),
      patch.name.GetOr(p.name),
      patch.supplier.GetOr(p.supplier),
      patch.unitCost.GetOr(p.unitCost),
      patch.unitType.GetOr(p.unitType),
      patch.createdAt.GetOr(p.createdAt),
      now)
  }

  function IdIsNot(id: string): Product -> bool
  {
    (p: Product) => p.id != id
  }

  /** `products.filter(p => p.id !== id)`. */
  function WithoutProduct(ps: seq<Product>, id: string): seq<Product>
  {
    Filter(ps, IdIsNot(id))
  }

  /** `products.find(p => p.id === id)`: the first product with that id, if any. */
  function FindProduct(ps: seq<Product>, id: string): (r: Option<Product>)
    ensures r.None? <==> id !in ProductIds(ps)
    ensures r.Some? ==> r.value.id == id
    ensures r.Some? ==> exists k :: 0 <= k < |ps| && ps[k] == r.value && forall j :: 0 <= j < k ==> ps[j].id != id
  {
    match IndexOf(ProductIds(ps), id)
    case None => None
    case Some(k) =>
      assert forall j :: 0 <= j < k ==> ProductIds(ps)[..k][j] == ps[j].id;
      Some(ps[k])
  }

  /** Deleting removes exactly the products with that id and keeps the others, in order. */
  lemma DeleteProductRemoves(ps: seq<Product>, id: string)
    ensures forall p :: p in WithoutProduct(ps, id) <==> p in ps && p.id != id
    ensures id !in ProductIds(WithoutProduct(ps, id))
    ensures IsSublist(WithoutProduct(ps, id), ps)
  {
    var r := WithoutProduct(ps, id);
    FilterMembership(ps, IdIsNot(id));
    FilterIsSublist(ps, IdIsNot(id));
    forall k | 0 <= k < |r| ensures ProductIds(r)[k] != id {
      assert r[k] in r;
    }
  }

  /** Deleting an id no product has changes nothing (and still reports success). */
  lemma DeleteUnknownProduct(ps: seq<Product>, id: string)
    requires id !in ProductIds(ps)
    ensures WithoutProduct(ps, id) == ps
  {
    forall p | p in ps ensures IdIsNot(id)(p) {
      var k :| 0 <= k < |ps| && ps[k] == p;
      assert ProductIds(ps)[k] == p.id;
    }
    FilterKeepsAll(ps, IdIsNot(id));
  }

  /** Deleting a product just created under a fresh id gives back the catalogue before it. */
  lemma DeleteUndoesCreate(ps: seq<Product>, d: ProductDraft, clock: nat, now: string)
    requires "prod-" + NatToString(clock) !in ProductIds(ps)
    ensures WithoutProduct(ps + [NewProduct(d, clock, now)], NewProduct(d, clock, now).id) == ps
  {
    var p := NewProduct(d, clock, now);
    FilterAppend(ps, [p], IdIsNot(p.id));
    DeleteUnknownProduct(ps, p.id);
  }

  /** An update that keeps the id is found again by the next lookup, merged and refreshed. */
  lemma UpdateThenFind(ps: seq<Product>, id: string, patch: ProductPatch, now: string)
    requires id in ProductIds(ps) && patch.id.None?
    ensures var k := IndexOf(ProductIds(ps), id).value;
      FindProduct(ps[k := Merge(ps[k], patch, now)], id) == Some(Merge(ps[k], patch, now))
  {
    var k := IndexOf(ProductIds(ps), id).value;
    var updated := ps[k := Merge(ps[k], patch, now)];
    assert ProductIds(updated) == ProductIds(ps);
  }

  /** Applying the same update twice is applying it once. */
  lemma MergeIdempotent(p: Product, patch: ProductPatch, now: string)
    ensures Merge(Merge(p, patch, now), patch, now) == Merge(p, patch, now)
  {
  }

  // ================================================================ orders

  /** The fields a caller supplies to create an order. */
  datatype OrderDraft = OrderDraft(orderNumber: string, date: string, productId: string, quantity: int)

  /**
    The order `createOrder` builds from the draft and the product it names:
    pending, unapproved, with the product's name, supplier and cost copied.
   */
  function NewOrder(d: OrderDraft, p: Product, actor: User, clock: nat, now: string): Order
  {
    Order("order-" + NatToString(clock), d.orderNumber, d.date, d.productId, p.name, p.supplier,
      p.unitCost, d.quantity, p.unitCost * d.quantity, actor.id, actor.name, None, None, Pending, now)
  }

  /** `{ ...order, status: 'approved', approvedBy: admin.id, approvedByName: admin.name }`. */
  function Approve(o: Order): Order
  {
    o.(status := Approved,
       approvedBy := Some(MockData.AdminUser.id),
       approvedByName := Some(MockData.AdminUser.name))
  }

  /** `{ ...order, status: 'rejected' }`: the approver fields are left as they were. */
  function Reject(o: Order): Order
  {
    o.(status := Rejected)
  }

  predicate IsPending(o: Order) { o.status == Pending }

  function OrderValue(o: Order): Cents { o.totalValue }

  /** `orders.find(o => o.id === id)`: the first order with that id, if any. */
  function FindOrder(os: seq<Order>, id: string): (r: Option<Order>)
    ensures r.None? <==> id !in OrderIds(os)
    ensures r.Some? ==> r.value.id == id
    ensures r.Some? ==> exists k :: 0 <= k < |os| && os[k] == r.value && forall j :: 0 <= j < k ==> os[j].id != id
  {
    match IndexOf(OrderIds(os), id)
    case None => None
    case Some(k) =>
      assert forall j :: 0 <= j < k ==> OrderIds(os)[..k][j] == os[j].id;
      Some(os[k])
  }

  /** The number of pending orders, as the dashboard counts them. */
  function PendingCount(os: seq<Order>): (n: nat)
    ensures n <= |os|
  {
    |Filter(os, IsPending)|
  }

  /** Creating an order adds one to the pending count. */
  lemma CreateOrderAddsPending(os: seq<Order>, d: OrderDraft, p: Product, actor: User, clock: nat, now: string)
    ensures PendingCount(os + [NewOrder(d, p, actor, clock, now)]) == PendingCount(os) + 1
  {
    FilterAppend(os, [NewOrder(d, p, actor, clock, now)], IsPending);
  }

  /**
    Approving or rejecting an order takes one off the pending count when the
    order was pending, and leaves the count alone otherwise.
   */
  lemma SettleOrderPending(os: seq<Order>, k: nat)
    requires k < |os|
    ensures PendingCount(os[k := Approve(os[k])]) == PendingCount(os) - (if os[k].status == Pending then 1 else 0)
    ensures PendingCount(os[k := Reject(os[k])]) == PendingCount(os) - (if os[k].status == Pending then 1 else 0)
  {
    FilterUpdate(os, k, Approve(os[k]), IsPending, OrderValue);
    FilterUpdate(os, k, Reject(os[k]), IsPending, OrderValue);
  }

  /** Rejecting after approving keeps the administrator as approver. */
  lemma RejectKeepsApprover(o: Order)
    ensures Reject(Approve(o)).status == Rejected
    ensures Reject(Approve(o)).approvedBy == Some(MockData.AdminUser.id)
  {
  }

  // ================================================================ stock entries

  /** The fields a caller supplies to record a stock entry. */
  datatype EntryDraft = EntryDraft(
    orderId: string,
    date: string,
    quantity: int,
    paymentMethod: PaymentMethod,
    installments: int)

  /**
    The entry `createStockEntry` builds from the draft and the order it names:
    the order's product fields and cost, the draft's quantity, approved by the
    administrator.
   */
  function NewEntry(d: EntryDraft, o: Order, actor: User, clock: nat, now: string): StockEntry
  {
    StockEntry("entry-" + NatToString(clock), d.date, o.id, o.orderNumber, o.productId, o.productName,
      o.supplier, d.quantity, o.unitCost, o.unitCost * d.quantity, d.paymentMethod, d.installments,
      actor.id, actor.name, Some(MockData.AdminUser.id), Some(MockData.AdminUser.name), now)
  }

  function EntryValue(e: StockEntry): Cents { e.totalValue }

  /** `Array.from({ length: q })` has `q` elements, and none when `q` is negative. */
  function UnitsReceived(q: int): (n: nat)
    ensures n >= q
    ensures q >= 0 ==> n == q
    ensures q < 0 ==> n == 0
  {
    if q < 0 then 0 else q
  }

  /** `item-${Date.now()}-${i}`, with the clock reading taken for unit `i`. */
  function ItemId(itemClock: nat -> nat, i: nat): string
  {
    "item-" + NatToString(itemClock(i)) + "-" + NatToString(i)
  }

  /** Two units of one entry never share an id, whatever the clock reads. */
  lemma ItemIdInjective(itemClock: nat -> nat, i: nat, j: nat)
    ensures ItemId(itemClock, i) == ItemId(itemClock, j) ==> i == j
  {
    if ItemId(itemClock, i) == ItemId(itemClock, j) {
      var a, b := NatToString(itemClock(i)), NatToString(i);
      var c, d := NatToString(itemClock(j)), NatToString(j);
      assert ItemId(itemClock, i)[5..] == a + "-" + b;
      assert ItemId(itemClock, j)[5..] == c + "-" + d;
      DashSeparated(a, b, c, d);
      NatToStringInjective(i, j);
    }
  }

  /** One available unit of an entry, with no invoice number, exit date or exit. */
  function NewUnit(entryId: string, o: Order, date: string, id: string): StockItem
  {
    StockItem(id, entryId, None, o.productId, o.productName, o.supplier, o.unitCost, date, None, Available, None)
  }

  /** The units a stock entry is exploded into: one per unit received, in order. */
  function Explode(entryId: string, o: Order, date: string, q: int, itemClock: nat -> nat): seq<StockItem>
  {
    seq(UnitsReceived(q), (i: nat) => NewUnit(entryId, o, date, ItemId(itemClock, i)))
  }

  /**
    An entry yields one unit per unit received; each is available, has left
    with no exit, names the entry and carries the order's product and cost.
   */
  lemma ExplodeUnits(entryId: string, o: Order, date: string, q: int, itemClock: nat -> nat)
    ensures var r := Explode(entryId, o, date, q, itemClock);
      && |r| == UnitsReceived(q)
      && forall x :: x in r ==>
        && x.status == Available && x.exitId.None?
        && x.stockEntryId == entryId && x.productId == o.productId && x.unitCost == o.unitCost
  {
  }

  /** The units of one entry carry pairwise distinct ids. */
  lemma ExplodedIdsDistinct(entryId: string, o: Order, date: string, q: int, itemClock: nat -> nat)
    ensures Distinct(ItemIds(Explode(entryId, o, date, q, itemClock)))
  {
    var ids := ItemIds(Explode(entryId, o, date, q, itemClock));
    forall i, j | 0 <= i < j < |ids| ensures ids[i] != ids[j] {
      ItemIdInjective(itemClock, i, j);
    }
  }

  /**
    An entry raises the number of available units by the units received and
    the stock value by their cost.
   */
  lemma EntryRaisesStock(items: seq<StockItem>, entryId: string, o: Order, date: string, q: int, itemClock: nat -> nat)
    ensures |AvailableItems(items + Explode(entryId, o, date, q, itemClock))| == |AvailableItems(items)| + UnitsReceived(q)
    ensures AvailableValue(items + Explode(entryId, o, date, q, itemClock)) == AvailableValue(items) + o.unitCost * UnitsReceived(q)
  {
    var units := Explode(entryId, o, date, q, itemClock);
    ExplodeUnits(entryId, o, date, q, itemClock);
    FilterAppend(items, units, IsAvailable);
    FilterKeepsAll(units, IsAvailable);
    SumAppend(Filter(items, IsAvailable), units, UnitCost);
    SumConst(units, UnitCost, o.unitCost);
  }

  /** The new units name the new entry, so an entry keeps the stock linked. */
  lemma EntryKeepsLinked(items: seq<StockItem>, entryIds: seq<string>, exitIds: seq<string>,
                         e: StockEntry, o: Order, date: string, q: int, itemClock: nat -> nat)
    requires Linked(items, entryIds, exitIds)
    ensures Linked(items + Explode(e.id, o, date, q, itemClock), entryIds + [e.id], exitIds)
  {
    var units := Explode(e.id, o, date, q, itemClock);
    ExplodeUnits(e.id, o, date, q, itemClock);
    LinkedEvery(items, entryIds, exitIds);
    forall x | x in items + units ensures LinkedUnit(x, entryIds + [e.id], exitIds) {
      if x !in items {
        assert x in units;
      }
    }
    LinkedEvery(items + units, entryIds + [e.id], exitIds);
  }

  // ================================================================ stock items

  /** The optional filters of `getStockItems`. */
  datatype ItemFilters = ItemFilters(status: Option<ItemStatus>, productId: Option<string>)

  /** A unit passes the filters; an empty product id is falsy and filters nothing. */
  predicate MatchesFilters(f: ItemFilters, x: StockItem)
  {
    && (f.status.Some? ==> x.status == f.status.value)
    && (f.productId.Some? && f.productId.value != "" ==> x.productId == f.productId.value)
  }

  /** `getStockItems(filters)`: the status filter, then the product filter. */
  function QueryStockItems(items: seq<StockItem>, f: ItemFilters): (r: seq<StockItem>)
    ensures |r| <= |items|
    ensures f.status.None? && (f.productId.None? || f.productId.value == "") ==> r == items
  {
    var byStatus := if f.status.Some? then Filter(items, StatusIs(f.status.value)) else items;
    if f.productId.Some? && f.productId.value != "" then Filter(byStatus, OfProduct(f.productId.value))
    else byStatus
  }

  /** A unit is in the answer exactly when it is in the store and passes the filters. */
  lemma QueryMembership(items: seq<StockItem>, f: ItemFilters)
    ensures forall x :: x in QueryStockItems(items, f) <==> x in items && MatchesFilters(f, x)
  {
    var byStatus := if f.status.Some? then Filter(items, StatusIs(f.status.value)) else items;
    if f.status.Some? {
      FilterMembership(items, StatusIs(f.status.value));
    }
    if f.productId.Some? && f.productId.value != "" {
      FilterMembership(byStatus, OfProduct(f.productId.value));
    }
  }

  /** The answer keeps the store's order: it is the store's list with some units dropped. */
  lemma QuerySublist(items: seq<StockItem>, f: ItemFilters)
    ensures IsSublist(QueryStockItems(items, f), items)
  {
    var byStatus := if f.status.Some? then Filter(items, StatusIs(f.status.value)) else items;
    if f.status.Some? {
      FilterIsSublist(items, StatusIs(f.status.value));
    } else {
      SublistRefl(items);
    }
    if f.productId.Some? && f.productId.value != "" {
      FilterIsSublist(byStatus, OfProduct(f.productId.value));
      SublistTrans(QueryStockItems(items, f), byStatus, items);
    }
  }

  // ================================================================ stock exits

  /** The fields a caller supplies to record a stock exit. */
  datatype ExitDraft = ExitDraft(stockItemIds: seq<string>, exitDate: string, observation: string)

  /** `stockItems.filter(item => ids.includes(item.id))`: the units an exit lists, in store order. */
  function Listed(items: seq<StockItem>, ids: seq<string>): seq<StockItem>
  {
    Filter(items, IdListed(ids))
  }

  /** The units an exit lists are exactly the stored units whose id it names. */
  lemma ListedMembers(items: seq<StockItem>, ids: seq<string>)
    ensures forall x :: x in Listed(items, ids) <==> x in items && x.id in ids
  {
    FilterMembership(items, IdListed(ids));
  }

  /**
    The exit `createStockExit` builds: product fields and entry date from the
    first listed unit, the count and total cost of the listed units, and no
    confirmation yet.
   */
  function NewExit(d: ExitDraft, listed: seq<StockItem>, actor: User, clock: nat): StockExit
    requires listed != []
  {
    StockExit("exit-" + NatToString(clock), d.stockItemIds, listed[0].productId, listed[0].productName,
      listed[0].supplier, |listed|, Sum(listed, UnitCost), listed[0].entryDate, d.exitDate, d.observation,
      actor.id, actor.name, None, None, None)
  }

  function Stamp(ids: seq<string>, exitId: string): StockItem -> StockItem
  {
    (i: StockItem) => if i.id in ids then i.(status := Exited, exitId := Some(exitId)) else i
  }

  /** `stockItems.map(...)` after an exit: listed units become exited under the new exit. */
  function MarkExited(items: seq<StockItem>, ids: seq<string>, exitId: string): seq<StockItem>
  {
    Map(items, Stamp(ids, exitId))
  }

  /**
    Stamping keeps the list's length; every listed unit becomes exited under
    the new exit, whatever its old status; unlisted units are unchanged; only
    status and exit id ever change.
   */
  lemma MarkExitedEffect(items: seq<StockItem>, ids: seq<string>, exitId: string)
    ensures var r := MarkExited(items, ids, exitId);
      && |r| == |items|
      && (forall k :: 0 <= k < |items| && items[k].id in ids ==>
            r[k].status == Exited && r[k].exitId == Some(exitId))
      && (forall k :: 0 <= k < |items| && items[k].id !in ids ==> r[k] == items[k])
      && (forall k :: 0 <= k < |items| ==>
            r[k].(status := items[k].status, exitId := items[k].exitId) == items[k])
  {
  }

  /** The induction behind ExitLowersStock, on the filters and the map themselves. */
  lemma {:induction false} StampLowers(items: seq<StockItem>, ids: seq<string>, exitId: string)
    ensures |Filter(Map(items, Stamp(ids, exitId)), IsAvailable)| + |Filter(Filter(items, IdListed(ids)), IsAvailable)|
      == |Filter(items, IsAvailable)|
    ensures Sum(Filter(Map(items, Stamp(ids, exitId)), IsAvailable), UnitCost)
      + Sum(Filter(Filter(items, IdListed(ids)), IsAvailable), UnitCost)
      == Sum(Filter(items, IsAvailable), UnitCost)
  {
    if items != [] {
      var st := Stamp(ids, exitId);
      var marked := Map(items, st);
      var x, rest := items[0], items[1..];
      assert marked[0] == st(x);
      assert marked[1..] == Map(rest, st);
      StampLowers(rest, ids, exitId);
      var avail := Filter(items, IsAvailable);
      var availRest := Filter(rest, IsAvailable);
      var gone := Filter(Filter(items, IdListed(ids)), IsAvailable);
      var goneRest := Filter(Filter(rest, IdListed(ids)), IsAvailable);
      if x.id in ids {
        assert Filter(marked, IsAvailable) == Filter(Map(rest, st), IsAvailable);
        assert Filter(items, IdListed(ids)) == [x] + Filter(rest, IdListed(ids));
        if IsAvailable(x) {
          assert avail == [x] + availRest;
          assert gone == [x] + goneRest;
        } else {
          assert avail == availRest;
          assert gone == goneRest;
        }
      } else {
        assert marked[0] == x;
        assert Filter(items, IdListed(ids)) == Filter(rest, IdListed(ids));
        assert gone == goneRest;
        if IsAvailable(x) {
          assert avail == [x] + availRest;
          assert Filter(marked, IsAvailable) == [x] + Filter(Map(rest, st), IsAvailable);
        } else {
          assert avail == availRest;
          assert Filter(marked, IsAvailable) == Filter(Map(rest, st), IsAvailable);
        }
      }
    }
  }

  /**
    An exit lowers the number of available units, and the stock value, by
    those of the listed units that were still available.
   */
  lemma ExitLowersStock(items: seq<StockItem>, ids: seq<string>, exitId: string)
    ensures |AvailableItems(MarkExited(items, ids, exitId))| ==
      |AvailableItems(items)| - |AvailableItems(Listed(items, ids))|
    ensures AvailableValue(MarkExited(items, ids, exitId)) ==
      AvailableValue(items) - AvailableValue(Listed(items, ids))
  {
    StampLowers(items, ids, exitId);
  }

  function ExitIs(exitId: string): StockItem -> bool
  {
    (i: StockItem) => i.exitId == Some(exitId)
  }

  /** Under a fresh exit id, the units stamped with it are the listed ones: same number, same cost. */
  lemma {:induction false} StampedAreListed(items: seq<StockItem>, ids: seq<string>, exitId: string)
    requires forall x :: x in items ==> x.exitId != Some(exitId)
    ensures |Filter(Map(items, Stamp(ids, exitId)), ExitIs(exitId))| == |Filter(items, IdListed(ids))|
    ensures Sum(Filter(Map(items, Stamp(ids, exitId)), ExitIs(exitId)), UnitCost) ==
      Sum(Filter(items, IdListed(ids)), UnitCost)
  {
    if items != [] {
      var st := Stamp(ids, exitId);
      var marked := Map(items, st);
      assert marked[0] == st(items[0]) && marked[1..] == Map(items[1..], st);
      assert items[0] in items;
      StampedAreListed(items[1..], ids, exitId);
    }
  }

  /**
    The exit record agrees with the units it stamps: its quantity is their
    number and its total cost the sum of their costs.
   */
  lemma ExitRecordMatchesUnits(items: seq<StockItem>, d: ExitDraft, actor: User, clock: nat)
    requires Listed(items, d.stockItemIds) != []
    requires forall x :: x in items ==> x.exitId != Some("exit-" + NatToString(clock))
    ensures var e := NewExit(d, Listed(items, d.stockItemIds), actor, clock);
      var stamped := Filter(MarkExited(items, d.stockItemIds, e.id), ExitIs(e.id));
      e.quantity == |stamped| && e.totalCost == Sum(stamped, UnitCost)
  {
    StampedAreListed(items, d.stockItemIds, "exit-" + NatToString(clock));
  }

  /** Stamping units with an exit that is recorded keeps the stock linked. */
  lemma {:induction false} ExitKeepsLinked(items: seq<StockItem>, entryIds: seq<string>, exitIds: seq<string>,
                                           ids: seq<string>, exitId: string)
    requires Linked(items, entryIds, exitIds)
    ensures Linked(MarkExited(items, ids, exitId), entryIds, exitIds + [exitId])
  {
    if items != [] {
      var y := items[0];
      var marked := MarkExited(items, ids, exitId);
      assert marked == [Stamp(ids, exitId)(y)] + MarkExited(items[1..], ids, exitId);
      ExitKeepsLinked(items[1..], entryIds, exitIds, ids, exitId);
      assert LinkedUnit(Stamp(ids, exitId)(y), entryIds, exitIds + [exitId]);
      assert marked[1..] == MarkExited(items[1..], ids, exitId);
    }
  }

  /** `{ ...exit, confirmedBy: admin.id, confirmedByName: admin.name, confirmedAt: now }`. */
  function Confirm(x: StockExit, now: string): StockExit
  {
    x.(confirmedBy := Some(MockData.AdminUser.id),
       confirmedByName := Some(MockData.AdminUser.name),
       confirmedAt := Some(now))
  }

  /** `stockExits.find(e => e.id === id)`, by index. */
  function ExitIndex(xs: seq<StockExit>, id: string): (r: Option<nat>)
    ensures r.None? <==> id !in ExitIds(xs)
    ensures r.Some? ==> r.value < |xs| && xs[r.value].id == id
    ensures r.Some? ==> id !in ExitIds(xs)[..r.value]
  {
    IndexOf(ExitIds(xs), id)
  }

  /** Nothing stops a second confirmation: it overwrites the first one's time. */
  lemma ConfirmTwice(x: StockExit, first: string, second: string)
    ensures Confirm(Confirm(x, first), second) == Confirm(x, second)
  {
  }

  /** Confirming an exit keeps every exit id and the total cost of all exits. */
  lemma ConfirmKeepsExits(xs: seq<StockExit>, k: nat, now: string)
    requires k < |xs|
    ensures ExitIds(xs[k := Confirm(xs[k], now)]) == ExitIds(xs)
    ensures Sum(xs[k := Confirm(xs[k], now)], ExitCost) == Sum(xs, ExitCost)
  {
    assert ExitIds(xs[k := Confirm(xs[k], now)]) == ExitIds(xs);
    SumUpdate(xs, k, Confirm(xs[k], now), ExitCost);
  }

  // ================================================================ dashboard

  /** `getDashboardStats` over the five lists; the monthly figures are all-time sums. */
  function DashboardOf(ps: seq<Product>, os: seq<Order>, es: seq<StockEntry>,
                       items: seq<StockItem>, xs: seq<StockExit>): (d: DashboardStats)
    ensures d.stockItemsCount + |Filter(items, IsExited)| == |items|
    ensures d.totalStockValue + Sum(Filter(items, IsExited), UnitCost) == Sum(items, UnitCost)
    ensures d.totalProducts == |ps| && d.pendingOrders <= |os|
  {
    StatusPartition(items);
    DashboardStats(|ps|, PendingCount(os), AvailableValue(items), |AvailableItems(items)|,
      Sum(es, EntryValue), Sum(xs, ExitCost))
  }

  /** A stock entry moves the dashboard by its units, their value and its total. */
  lemma DashboardAfterEntry(ps: seq<Product>, os: seq<Order>, es: seq<StockEntry>, items: seq<StockItem>,
                            xs: seq<StockExit>, e: StockEntry, o: Order, date: string, q: int,
                            itemClock: nat -> nat)
    ensures var before := DashboardOf(ps, os, es, items, xs);
      DashboardOf(ps, os, es + [e], items + Explode(e.id, o, date, q, itemClock), xs) ==
        before.(stockItemsCount := before.stockItemsCount + UnitsReceived(q),
                totalStockValue := before.totalStockValue + o.unitCost * UnitsReceived(q),
                monthlyEntries := before.monthlyEntries + e.totalValue)
  {
    EntryRaisesStock(items, e.id, o, date, q, itemClock);
    SumAppend(es, [e], EntryValue);
  }

  /**
    A stock exit moves the dashboard down by the listed units still available
    and their value, and adds the exit's cost to the exits total.
   */
  lemma DashboardAfterExit(ps: seq<Product>, os: seq<Order>, es: seq<StockEntry>, items: seq<StockItem>,
                           xs: seq<StockExit>, e: StockExit, ids: seq<string>)
    ensures var before := DashboardOf(ps, os, es, items, xs);
      var after := DashboardOf(ps, os, es, MarkExited(items, ids, e.id), xs + [e]);
      var gone := AvailableItems(Listed(items, ids));
      && after.stockItemsCount + |gone| == before.stockItemsCount
      && after.totalStockValue + Sum(gone, UnitCost) == before.totalStockValue
      && after.monthlyExits == before.monthlyExits + e.totalCost
      && after.(stockItemsCount := before.stockItemsCount, totalStockValue := before.totalStockValue,
                monthlyExits := before.monthlyExits) == before
  {
    var before := DashboardOf(ps, os, es, items, xs);
    var marked := MarkExited(items, ids, e.id);
    var after := DashboardOf(ps, os, es, marked, xs + [e]);
    var gone := AvailableItems(Listed(items, ids));
    ExitLowersStock(items, ids, e.id);
    assert after.stockItemsCount == |AvailableItems(marked)|;
    assert before.stockItemsCount == |AvailableItems(items)|;
    assert after.totalStockValue == AvailableValue(marked);
    assert before.totalStockValue == AvailableValue(items);
    SumAppend(xs, [e], ExitCost);
    assert after.monthlyExits == Sum(xs + [e], ExitCost);
  }

  // ================================================================ the store

  /** The five lists the store keeps, replaced or overwritten in place by its operations. */
  class Store {
    var products: seq<Product>
    var orders: seq<Order>
    var stockEntries: seq<StockEntry>
    var stockItems: seq<StockItem>
    var stockExits: seq<StockExit>

    constructor (ps: seq<Product>, os: seq<Order>, es: seq<StockEntry>, items: seq<StockItem>, xs: seq<StockExit>)
      ensures products == ps && orders == os && stockEntries == es
      ensures stockItems == items && stockExits == xs
    {
      products, orders, stockEntries, stockItems, stockExits := ps, os, es, items, xs;
    }

    method GetProductById(id: string) returns (r: Result<Product>)
      ensures r.Err? <==> id !in ProductIds(products)
      ensures r.Err? ==> r.error == ProductNotFound
      ensures r.Ok? ==> r.value.id == id
      ensures r.Ok? ==> exists k :: 0 <= k < |products| && products[k] == r.value && forall j :: 0 <= j < k ==> products[j].id != id
    {
      var found := FindProduct(products, id);
      if found.Some? {
        r := Ok(found.value);
      } else {
        r := Err(ProductNotFound);
      }
    }

    method GetOrderById(id: string) returns (r: Result<Order>)
      ensures r.Err? <==> id !in OrderIds(orders)
      ensures r.Err? ==> r.error == OrderNotFound
      ensures r.Ok? ==> r.value.id == id
      ensures r.Ok? ==> exists k :: 0 <= k < |orders| && orders[k] == r.value && forall j :: 0 <= j < k ==> orders[j].id != id
    {
      var found := FindOrder(orders, id);
      if found.Some? {
        r := Ok(found.value);
      } else {
        r := Err(OrderNotFound);
      }
    }

    method CreateProduct(d: ProductDraft, clock: nat, now: string) returns (p: Product)
      modifies this`products
      ensures p == NewProduct(d, clock, now)
      ensures products == old(products) + [p]
    {
      p := NewProduct(d, clock, now);
      products := products + [p];
    }

    method UpdateProduct(id: string, patch: ProductPatch, now: string) returns (r: Result<Product>)
      modifies this`products
      ensures r.Err? <==> id !in ProductIds(old(products))
      ensures r.Err? ==> r.error == ProductNotFound && products == old(products)
      ensures r.Ok? ==> var k := IndexOf(ProductIds(old(products)), id).value;
        && products == old(products)[k := Merge(old(products)[k], patch, now)]
        && r.value == products[k] && r.value.updatedAt == now
    {
      match IndexOf(ProductIds(products), id) {
        case None =>
          r := Err(ProductNotFound);
        case Some(k) =>
          products := products[k := Merge(products[k], patch, now)];
          r := Ok(products[k]);
      }
    }

    /** Always succeeds, whether or not a product had that id. */
    method DeleteProduct(id: string) returns (ok: bool)
      modifies this`products
      ensures ok
      ensures products == WithoutProduct(old(products), id)
    {
      products := WithoutProduct(products, id);
      ok := true;
    }

    method CreateOrder(d: OrderDraft, actor: User, clock: nat, now: string) returns (r: Result<Order>)
      modifies this`orders
      ensures r.Err? <==> d.productId !in ProductIds(products)
      ensures r.Err? ==> r.error == ProductNotFound && orders == old(orders)
      ensures r.Ok? ==>
        && r.value == NewOrder(d, FindProduct(products, d.productId).value, actor, clock, now)
        && orders == old(orders) + [r.value]
        && r.value.status == Pending && r.value.approvedBy.None? && r.value.approvedByName.None?
        && r.value.totalValue == r.value.unitCost * d.quantity
    {
      var found := FindProduct(products, d.productId);
      if found.None? {
        r := Err(ProductNotFound);
      } else {
        var o := NewOrder(d, found.value, actor, clock, now);
        orders := orders + [o];
        r := Ok(o);
      }
    }

    method ApproveOrder(id: string) returns (r: Result<Order>)
      modifies this`orders
      ensures r.Err? <==> id !in OrderIds(old(orders))
      ensures r.Err? ==> r.error == OrderNotFound && orders == old(orders)
      ensures r.Ok? ==> var k := IndexOf(OrderIds(old(orders)), id).value;
        && orders == old(orders)[k := Approve(old(orders)[k])]
        && r.value == orders[k] && r.value.status == Approved
        && r.value.approvedBy == Some(MockData.AdminUser.id)
    {
      match IndexOf(OrderIds(orders), id) {
        case None =>
          r := Err(OrderNotFound);
        case Some(k) =>
          orders := orders[k := Approve(orders[k])];
          r := Ok(orders[k]);
      }
    }

    method RejectOrder(id: string) returns (r: Result<Order>)
      modifies this`orders
      ensures r.Err? <==> id !in OrderIds(old(orders))
      ensures r.Err? ==> r.error == OrderNotFound && orders == old(orders)
      ensures r.Ok? ==> var k := IndexOf(OrderIds(old(orders)), id).value;
        && orders == old(orders)[k := Reject(old(orders)[k])]
        && r.value == orders[k] && r.value.status == Rejected
        && r.value.approvedBy == old(orders)[k].approvedBy
    {
      match IndexOf(OrderIds(orders), id) {
        case None =>
          r := Err(OrderNotFound);
        case Some(k) =>
          orders := orders[k := Reject(orders[k])];
          r := Ok(orders[k]);
      }
    }

    /**
      No check of the order's status and no cap on the quantity below the
      array limit. The entry is recorded before its units are generated, so a
      quantity above the limit leaves the entry recorded with no units and
      rejects with a `RangeError`.
     */
    method CreateStockEntry(d: EntryDraft, actor: User, clock: nat, now: string, itemClock: nat -> nat)
      returns (r: Result<StockEntry>)
      modifies this`stockEntries, this`stockItems
      ensures d.orderId !in OrderIds(orders) ==>
        r == Err(OrderNotFound) && stockEntries == old(stockEntries) && stockItems == old(stockItems)
      ensures d.orderId in OrderIds(orders) ==>
        var o := FindOrder(orders, d.orderId).value;
        var e := NewEntry(d, o, actor, clock, now);
        && e.totalValue == o.unitCost * d.quantity
        && stockEntries == old(stockEntries) + [e]
        && (d.quantity > MaxArrayLength ==> r == Err(InvalidArrayLength) && stockItems == old(stockItems))
        && (d.quantity <= MaxArrayLength ==>
              r == Ok(e) && stockItems == old(stockItems) + Explode(e.id, o, d.date, d.quantity, itemClock))
    {
      var found := FindOrder(orders, d.orderId);
      if found.None? {
        r := Err(OrderNotFound);
      } else {
        var e := NewEntry(d, found.value, actor, clock, now);
        stockEntries := stockEntries + [e];
        if d.quantity > MaxArrayLength {
          r := Err(InvalidArrayLength);
        } else {
          stockItems := stockItems + Explode(e.id, found.value, d.date, d.quantity, itemClock);
          r := Ok(e);
        }
      }
    }

    method GetStockItems(f: ItemFilters) returns (r: seq<StockItem>)
      ensures r == QueryStockItems(stockItems, f)
      ensures forall x :: x in r <==> x in stockItems && MatchesFilters(f, x)
      ensures IsSublist(r, stockItems)
    {
      r := QueryStockItems(stockItems, f);
      QueryMembership(stockItems, f);
      QuerySublist(stockItems, f);
    }

    /** Availability is not checked: a listed unit that already left is stamped again. */
    method CreateStockExit(d: ExitDraft, actor: User, clock: nat) returns (r: Result<StockExit>)
      modifies this`stockExits, this`stockItems
      ensures var listed := Listed(old(stockItems), d.stockItemIds);
        && (r.Err? <==> listed == [])
        && (r.Err? ==>
              r.error == ItemsNotFound && stockExits == old(stockExits) && stockItems == old(stockItems))
        && (r.Ok? ==>
              && r.value == NewExit(d, listed, actor, clock)
              && r.value.quantity == |listed| && r.value.totalCost == Sum(listed, UnitCost)
              && r.value.confirmedAt.None?
              && stockExits == old(stockExits) + [r.value]
              && stockItems == MarkExited(old(stockItems), d.stockItemIds, r.value.id))
    {
      var listed := Listed(stockItems, d.stockItemIds);
      if listed == [] {
        r := Err(ItemsNotFound);
      } else {
        var e := NewExit(d, listed, actor, clock);
        stockExits := stockExits + [e];
        stockItems := MarkExited(stockItems, d.stockItemIds, e.id);
        r := Ok(e);
      }
    }

    /**
      No guard against confirming twice: a second call overwrites the first.
      Every exit keeps its id, so the stock stays linked.
     */
    method ConfirmStockExit(id: string, now: string) returns (r: Result<StockExit>)
      modifies this`stockExits
      ensures r.Err? <==> id !in ExitIds(old(stockExits))
      ensures r.Err? ==> r.error == ExitNotFound && stockExits == old(stockExits)
      ensures r.Ok? ==> var k := ExitIndex(old(stockExits), id).value;
        && stockExits == old(stockExits)[k := Confirm(old(stockExits)[k], now)]
        && r.value == stockExits[k] && r.value.confirmedAt == Some(now)
        && r.value.confirmedBy == Some(MockData.AdminUser.id)
      ensures ExitIds(stockExits) == ExitIds(old(stockExits))
    {
      match ExitIndex(stockExits, id) {
        case None =>
          r := Err(ExitNotFound);
        case Some(k) =>
          ConfirmKeepsExits(stockExits, k, now);
          stockExits := stockExits[k := Confirm(stockExits[k], now)];
          r := Ok(stockExits[k]);
      }
    }

    method GetDashboardStats() returns (d: DashboardStats)
      ensures d == DashboardOf(products, orders, stockEntries, stockItems, stockExits)
      ensures d.stockItemsCount + |Filter(stockItems, IsExited)| == |stockItems|
    {
      d := DashboardOf(products, orders, stockEntries, stockItems, stockExits);
    }
  }
}
