/**
  The records of the inventory system in the shapes the store builds: the
  single-product order and stock entry, and the unit-level stock item. Money
  is kept in integer cents (a price of 2500.00 is 250000); `T | null` fields
  are `Option<T>`.
 */
module Types {
  import opened Wrappers
  import opened Seqs

  /** An amount of money in cents. */
  type Cents = int

  datatype Role = Admin | RegularUser

  datatype User = User(id: string, name: string, email: string, role: Role, createdAt: string)

  datatype Product = Product(
    id: string,
    name: string,
    supplier: string,
    unitCost: Cents,
    unitType: string,
    createdAt: string,
    updatedAt: string)

  /** The status of a single-product order. */
  datatype OrderStatus = Pending | Approved | Rejected

  /** A single-product purchase order. */
  datatype Order = Order(
    id: string,
    orderNumber: string,
    date: string,
    productId: string,
    productName: string,
    supplier: string,
    unitCost: Cents,
    quantity: int,
    totalValue: Cents,
    createdBy: string,
    createdByName: string,
    approvedBy: Option<string>,
    approvedByName: Option<string>,
    status: OrderStatus,
    createdAt: string)

  datatype PaymentMethod = CreditCard | Boleto | Pix

  /** A single-product receipt of goods against an order. */
  datatype StockEntry = StockEntry(
    id: string,
    date: string,
    orderId: string,
    orderNumber: string,
    productId: string,
    productName: string,
    supplier: string,
    quantity: int,
    unitCost: Cents,
    totalValue: Cents,
    paymentMethod: PaymentMethod,
    installments: int,
    createdBy: string,
    createdByName: string,
    approvedBy: Option<string>,
    approvedByName: Option<string>,
    createdAt: string)

  datatype ItemStatus = Available | Exited

  /**
    One physical unit in stock. Units built by the store carry no invoice
    number and no exit date (those fields stay `None`); the seed units carry both.
   */
  datatype StockItem = StockItem(
    id: string,
    stockEntryId: string,
    invoiceNumber: Option<string>,
    productId: string,
    productName: string,
    supplier: string,
    unitCost: Cents,
    entryDate: string,
    exitDate: Option<string>,
    status: ItemStatus,
    exitId: Option<string>)

  /** A record of units leaving the stock. */
  datatype StockExit = StockExit(
    id: string,
    stockItemIds: seq<string>,
    productId: string,
    productName: string,
    supplier: string,
    quantity: nat,
    totalCost: Cents,
    entryDate: string,
    exitDate: string,
    observation: string,
    createdBy: string,
    createdByName: string,
    confirmedBy: Option<string>,
    confirmedByName: Option<string>,
    confirmedAt: Option<string>)

  datatype PaymentInstallment = PaymentInstallment(
    id: string,
    stockEntryId: string,
    installmentNumber: int,
    value: Cents,
    dueDate: string,
    paidAt: Option<string>)

  datatype DashboardStats = DashboardStats(
    totalProducts: nat,
    pendingOrders: nat,
    totalStockValue: Cents,
    stockItemsCount: nat,
    monthlyEntries: Cents,
    monthlyExits: Cents)

  // ---------------------------------------------------------------- ids

  function ProductIds(ps: seq<Product>): (r: seq<string>)
    ensures |r| == |ps| && forall k :: 0 <= k < |ps| ==> r[k] == ps[k].id
  {
    if ps == [] then [] else [ps[0].id] + ProductIds(ps[1..])
  }

  function OrderIds(os: seq<Order>): (r: seq<string>)
    ensures |r| == |os| && forall k :: 0 <= k < |os| ==> r[k] == os[k].id
  {
    if os == [] then [] else [os[0].id] + OrderIds(os[1..])
  }

  function EntryIds(es: seq<StockEntry>): (r: seq<string>)
    ensures |r| == |es| && forall k :: 0 <= k < |es| ==> r[k] == es[k].id
  {
    if es == [] then [] else [es[0].id] + EntryIds(es[1..])
  }

  function ExitIds(xs: seq<StockExit>): (r: seq<string>)
    ensures |r| == |xs| && forall k :: 0 <= k < |xs| ==> r[k] == xs[k].id
  {
    if xs == [] then [] else [xs[0].id] + ExitIds(xs[1..])
  }

  function ItemIds(items: seq<StockItem>): (r: seq<string>)
    ensures |r| == |items| && forall k :: 0 <= k < |items| ==> r[k] == items[k].id
  {
    if items == [] then [] else [items[0].id] + ItemIds(items[1..])
  }

  // ---------------------------------------------------------------- stock items

  predicate IsAvailable(i: StockItem) { i.status == Available }

  predicate IsExited(i: StockItem) { i.status == Exited }

  function UnitCost(i: StockItem): Cents { i.unitCost }

  /** The units with the given status (`item.status === status`). */
  function StatusIs(status: ItemStatus): StockItem -> bool
  {
    (i: StockItem) => i.status == status
  }

  /** The units of one product (`item.productId === productId`). */
  function OfProduct(productId: string): StockItem -> bool
  {
    (i: StockItem) => i.productId == productId
  }

  function ExitCost(x: StockExit): Cents { x.totalCost }

  function InstallmentValue(inst: PaymentInstallment): Cents { inst.value }

  /** The units whose id is in `ids` (`ids.includes(item.id)`). */
  function IdListed(ids: seq<string>): StockItem -> bool
  {
    (i: StockItem) => i.id in ids
  }

  /** The units still in stock, in list order (`items.filter(i => i.status === 'available')`). */
  function AvailableItems(items: seq<StockItem>): (r: seq<StockItem>)
    ensures forall x :: x in r <==> x in items && x.status == Available
  {
    FilterMembership(items, IsAvailable);
    Filter(items, IsAvailable)
  }

  /** The value of the stock: the sum of the unit costs of the available units. */
  function AvailableValue(items: seq<StockItem>): Cents
  {
    Sum(AvailableItems(items), UnitCost)
  }

  /** Every unit is either available or exited, so the two filters partition the list. */
  lemma StatusPartition(items: seq<StockItem>)
    ensures |Filter(items, IsAvailable)| + |Filter(items, IsExited)| == |items|
    ensures AvailableValue(items) + Sum(Filter(items, IsExited), UnitCost) == Sum(items, UnitCost)
  {
    FilterPartition(items, IsAvailable, IsExited, UnitCost);
  }

  /** One unit's links: exited exactly when it names an exit, which is recorded, and its entry is recorded. */
  ghost predicate LinkedUnit(x: StockItem, entryIds: seq<string>, exitIds: seq<string>)
  {
    && (x.status == Exited <==> x.exitId.Some?)
    && (x.exitId.Some? ==> x.exitId.value in exitIds)
    && x.stockEntryId in entryIds
  }

  /** The stock's links, unit by unit: exited units name an exit, every unit names its entry. */
  ghost predicate Linked(items: seq<StockItem>, entryIds: seq<string>, exitIds: seq<string>)
  {
    items == [] || (LinkedUnit(items[0], entryIds, exitIds) && Linked(items[1..], entryIds, exitIds))
  }

  /** The stock is linked exactly when every one of its units is. */
  lemma {:induction false} LinkedEvery(items: seq<StockItem>, entryIds: seq<string>, exitIds: seq<string>)
    ensures Linked(items, entryIds, exitIds) <==> forall x :: x in items ==> LinkedUnit(x, entryIds, exitIds)
  {
    if items != [] {
      LinkedEvery(items[1..], entryIds, exitIds);
      assert forall x :: x in items <==> x == items[0] || x in items[1..];
    }
  }

  /** The stock is linked when each of its units, taken by position, is. */
  lemma {:induction false} LinkedByIndex(items: seq<StockItem>, entryIds: seq<string>, exitIds: seq<string>)
    requires forall i :: 0 <= i < |items| ==> LinkedUnit(items[i], entryIds, exitIds)
    ensures Linked(items, entryIds, exitIds)
  {
    if items != [] {
      assert LinkedUnit(items[0], entryIds, exitIds);
      assert forall i :: 0 <= i < |items[1..]| ==> items[1..][i] == items[i + 1];
      LinkedByIndex(items[1..], entryIds, exitIds);
    }
  }
}
