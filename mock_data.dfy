/**
  The seed data the store starts from, and the two lookup helpers defined
  beside it. The seed orders and the seed stock entry are written in the
  itemized shape (an order with several product lines, an entry split into
  invoices) that no store operation builds; they are modelled here only as
  constants, so that their consistency can be checked.
 */
module MockData {
  import opened Wrappers
  import opened Seqs
  import opened Text
  import opened Types

  /** The regular user `getCurrentUser` answers with when the session is not the administrator's. */
  const CurrentUser: User :=
    User("user-1", "Maria Silva", "maria@agconsultoria.com.br", RegularUser, "2024-01-15T10:00:00Z")

  /** The administrator every approval and confirmation is attributed to. */
  const AdminUser: User :=
    User("admin-1", "Carlos Administrador", "carlos@agconsultoria.com.br", Admin, "2024-01-01T10:00:00Z")

  const MockProducts: seq<Product> := [
    Product("prod-1", "Mounjaro 5mg", "Eli Lilly", 250000, "caixa", "2024-06-01T10:00:00Z", "2024-06-01T10:00:00Z"),
    Product("prod-2", "Ozempic 1mg", "Novo Nordisk", 120000, "caneta", "2024-06-01T10:00:00Z", "2024-06-01T10:00:00Z"),
    Product("prod-3", "Wegovy 2.4mg", "Novo Nordisk", 350000, "caixa", "2024-06-15T10:00:00Z", "2024-06-15T10:00:00Z"),
    Product("prod-4", "Saxenda 6mg/ml", "Novo Nordisk", 95000, "caneta", "2024-07-01T10:00:00Z", "2024-07-01T10:00:00Z")
  ]

  // ---------------------------------------------------------------- itemized seed shapes

  /**
    An itemized order's status, the strings 'pending', 'approved', 'rejected'
    and 'partial'; the names keep them apart from the line statuses.
   */
  datatype ItemizedStatus = AllPending | AllApproved | AllRejected | Partial

  /** The itemized status that an order whose lines all have status `s` carries. */
  function Uniform(s: OrderStatus): ItemizedStatus
  {
    match s
    case Pending => AllPending
    case Approved => AllApproved
    case Rejected => AllRejected
  }

  datatype OrderLine = OrderLine(
    id: string,
    productId: string,
    productName: string,
    supplier: string,
    unitCost: Cents,
    quantity: int,
    totalValue: Cents,
    status: OrderStatus,
    approvedBy: Option<string>,
    approvedByName: Option<string>)

  datatype ItemizedOrder = ItemizedOrder(
    id: string,
    orderNumber: string,
    date: string,
    lines: seq<OrderLine>,
    totalValue: Cents,
    createdBy: string,
    createdByName: string,
    status: ItemizedStatus,
    createdAt: string)

  datatype InvoiceLine = InvoiceLine(
    id: string,
    orderItemId: string,
    productId: string,
    productName: string,
    supplier: string,
    quantity: int,
    originalUnitCost: Cents,
    adjustedUnitCost: Cents,
    totalValue: Cents)

  datatype Invoice = Invoice(id: string, invoiceNumber: string, lines: seq<InvoiceLine>, totalValue: Cents)

  datatype InvoicedEntry = InvoicedEntry(
    id: string,
    date: string,
    orderId: string,
    orderNumber: string,
    invoices: seq<Invoice>,
    totalQuantity: int,
    totalValue: Cents,
    paymentMethod: PaymentMethod,
    installments: int,
    createdBy: string,
    createdByName: string,
    approvedBy: Option<string>,
    approvedByName: Option<string>,
    createdAt: string)

  const MockOrders: seq<ItemizedOrder> := [
    ItemizedOrder("order-1", "PED-2024-001", "2024-12-10",
      [OrderLine("order-item-1", "prod-1", "Mounjaro 5mg", "Eli Lilly", 250000, 50, 12500000,
                 Approved, Some("admin-1"), Some("Carlos Administrador"))],
      12500000, "user-1", "Maria Silva", AllApproved, "2024-12-10T14:30:00Z"),
    ItemizedOrder("order-2", "PED-2024-002", "2024-12-12",
      [OrderLine("order-item-2", "prod-2", "Ozempic 1mg", "Novo Nordisk", 120000, 30, 3600000,
                 Pending, None, None),
       OrderLine("order-item-3", "prod-4", "Saxenda 6mg/ml", "Novo Nordisk", 95000, 20, 1900000,
                 Pending, None, None)],
      5500000, "user-1", "Maria Silva", AllPending, "2024-12-12T09:15:00Z"),
    ItemizedOrder("order-3", "PED-2024-003", "2024-12-15",
      [OrderLine("order-item-4", "prod-3", "Wegovy 2.4mg", "Novo Nordisk", 350000, 20, 7000000,
                 Approved, Some("admin-1"), Some("Carlos Administrador"))],
      7000000, "user-1", "Maria Silva", AllApproved, "2024-12-15T11:00:00Z")
  ]

  /** The one seed entry: 50 units of `prod-1` on one invoice, paid in three installments. */
  const SeedEntry: InvoicedEntry :=
    InvoicedEntry("entry-1", "2024-12-11", "order-1", "PED-2024-001",
      [Invoice("invoice-1", "NF-123456",
        [InvoiceLine("inv-item-1", "order-item-1", "prod-1", "Mounjaro 5mg", "Eli Lilly", 50, 250000, 250000, 12500000)],
        12500000)],
      50, 12500000, Boleto, 3, "user-1", "Maria Silva", Some("admin-1"), Some("Carlos Administrador"),
      "2024-12-11T10:00:00Z")

  const MockStockEntries: seq<InvoicedEntry> := [SeedEntry]

  /** The `i`-th generated seed unit (0-based): the last five have left the stock. */
  function SeedItem(i: nat): StockItem
  {
    StockItem(
      "item-" + NatToString(i + 1), "entry-1", Some("NF-123456"), "prod-1", "Mounjaro 5mg", "Eli Lilly",
      250000, "2024-12-11",
      if i >= 45 then Some("2024-12-16") else None,
      if i < 45 then Available else Exited,
      if i >= 45 then Some("exit-1") else None)
  }

  /** The 50 generated seed units. */
  function MockStockItems(): (r: seq<StockItem>)
    ensures |r| == 50
  {
    seq(50, (i: nat) => SeedItem(i))
  }

  /** The i-th seed unit is the one generated for i. */
  lemma SeedItems()
    ensures forall i :: 0 <= i < 50 ==> MockStockItems()[i] == SeedItem(i)
  {
  }

  const SeedExitItemIds: seq<string> := ["item-46", "item-47", "item-48", "item-49", "item-50"]

  /** The one seed exit, of the last five generated units. */
  const SeedExit: StockExit :=
    StockExit("exit-1", SeedExitItemIds,
      "prod-1", "Mounjaro 5mg", "Eli Lilly", 5, 1250000, "2024-12-11", "2024-12-16",
      "Saída para paciente João Silva - Protocolo #12345", "user-1", "Maria Silva",
      Some("admin-1"), Some("Carlos Administrador"), Some("2024-12-16T15:30:00Z"))

  const MockStockExits: seq<StockExit> := [SeedExit]

  const MockInstallments: seq<PaymentInstallment> := [
    PaymentInstallment("inst-1", "entry-1", 1, 4166667, "2024-12-11", Some("2024-12-11T10:00:00Z")),
    PaymentInstallment("inst-2", "entry-1", 2, 4166667, "2025-01-11", None),
    PaymentInstallment("inst-3", "entry-1", 3, 4166666, "2025-02-11", None)
  ]

  const MockDashboardStats: DashboardStats := DashboardStats(4, 1, 11250000, 45, 12500000, 1250000)

  // ---------------------------------------------------------------- helpers

  /** `getAvailableStockItems`: the seed units still in stock. */
  function AvailableSeedItems(): (r: seq<StockItem>)
    ensures forall x :: x in r ==> x in MockStockItems() && x.status == Available
  {
    AvailableItems(MockStockItems())
  }

  /** `getStockItemsByProduct`: the seed units of one product still in stock. */
  function SeedItemsByProduct(productId: string): (r: seq<StockItem>)
    ensures forall x :: x in r ==> x in MockStockItems() && x.status == Available && x.productId == productId
  {
    Filter(MockStockItems(), (i: StockItem) => i.productId == productId && i.status == Available)
  }

  // ---------------------------------------------------------------- seed facts

  lemma ItemIdSuffix(a: string, b: string)
    requires "item-" + a == "item-" + b
    ensures a == b
  {
    assert a == ("item-" + a)[5..];
    assert b == ("item-" + b)[5..];
  }

  /** The generated unit ids `item-1` .. `item-50` are pairwise distinct. */
  lemma SeedItemIdsDistinct()
    ensures forall i, j :: 0 <= i < j < 50 ==> MockStockItems()[i].id != MockStockItems()[j].id
  {
    SeedItems();
    forall i, j | 0 <= i < j < 50 ensures MockStockItems()[i].id != MockStockItems()[j].id {
      if MockStockItems()[i].id == MockStockItems()[j].id {
        ItemIdSuffix(NatToString(i + 1), NatToString(j + 1));
        NatToStringInjective(i + 1, j + 1);
      }
    }
  }

  /** The ids the seed exit lists are the renderings of `item-46` .. `item-50`. */
  lemma SeedExitIdsRendered(k: nat)
    requires k < 5
    ensures |SeedExitItemIds| == 5 && SeedExitItemIds[k] == "item-" + NatToString(46 + k)
  {
    if k == 0 {
      assert NatToString(46) == "46";
    } else if k == 1 {
      assert NatToString(47) == "47";
    } else if k == 2 {
      assert NatToString(48) == "48";
    } else if k == 3 {
      assert NatToString(49) == "49";
    } else {
      assert NatToString(50) == "50";
    }
  }

  /** The units of the seed exit are exactly the generated units 45..49 (`item-46` .. `item-50`). */
  lemma SeedExitIds(i: nat)
    requires i < 50
    ensures SeedItem(i).id in SeedExitItemIds <==> i >= 45
  {
    var s := NatToString(i + 1);
    if i >= 45 {
      SeedExitIdsRendered(i - 45);
    } else if SeedItem(i).id in SeedExitItemIds {
      var k :| 0 <= k < 5 && SeedExitItemIds[k] == SeedItem(i).id;
      SeedExitIdsRendered(k);
      ItemIdSuffix(s, NatToString(46 + k));
      NatToStringInjective(i + 1, 46 + k);
    }
  }

  /** The seed units the seed exit lists are the last five. */
  lemma SeedExitListed()
    ensures Filter(MockStockItems(), IdListed(SeedExitItemIds)) == MockStockItems()[45..]
  {
    SeedListedByIndex();
    FilterSuffix(MockStockItems(), IdListed(SeedExitItemIds), 45);
  }

  /** The seed exit lists the seed unit at position `i` exactly when `i` is one of the last five. */
  lemma SeedListedByIndex()
    ensures forall i :: 0 <= i < 50 ==> (MockStockItems()[i].id in SeedExitItemIds <==> i >= 45)
  {
    SeedItems();
    forall i | 0 <= i < 50 ensures MockStockItems()[i].id in SeedExitItemIds <==> i >= 45 {
      SeedExitIds(i);
    }
  }

  /**
    The seed exit agrees with the units it lists: they are the five exited
    units, each stamped with the exit's id, its quantity is their number and
    its total cost the sum of their unit costs (5 x 2500.00).
   */
  lemma SeedExitConsistent()
    ensures var listed := Filter(MockStockItems(), IdListed(SeedExit.stockItemIds));
      && listed == MockStockItems()[45..]
      && (forall u :: u in listed ==> u.status == Exited && u.exitId == Some(SeedExit.id))
      && SeedExit.quantity == |listed| == |SeedExit.stockItemIds|
      && SeedExit.totalCost == Sum(listed, UnitCost) == 5 * 250000
  {
    SeedExitListed();
    SeedItems();
    var tail := MockStockItems()[45..];
    forall u | u in tail ensures u.status == Exited && u.exitId == Some(SeedExit.id) && u.unitCost == 250000 {
      var i :| 0 <= i < 5 && tail[i] == u;
      assert u == SeedItem(45 + i);
    }
    SumConst(tail, UnitCost, 250000);
  }

  /** The first 45 seed units are available and the last five exited, all of `prod-1` at 2500.00. */
  lemma SeedShape()
    ensures forall i :: 0 <= i < 50 ==>
      && MockStockItems()[i].productId == "prod-1"
      && MockStockItems()[i].unitCost == 250000
      && MockStockItems()[i].stockEntryId == "entry-1"
      && (MockStockItems()[i].status == Available <==> i < 45)
      && (MockStockItems()[i].exitId == if i < 45 then None else Some("exit-1"))
  {
    SeedItems();
  }

  /** The available seed units are the first 45, worth 45 x 2500.00. */
  lemma SeedAvailable()
    ensures AvailableSeedItems() == MockStockItems()[..45]
    ensures |AvailableSeedItems()| == 45
    ensures AvailableValue(MockStockItems()) == 45 * 250000
  {
    var items := MockStockItems();
    SeedShape();
    FilterPrefix(items, IsAvailable, 45);
    assert forall x :: x in items[..45] ==> UnitCost(x) == 250000;
    SumConst(items[..45], UnitCost, 250000);
  }

  /** Every seed unit is of `prod-1`, so only that product has available units. */
  lemma SeedItemsByProductCount(productId: string)
    ensures |SeedItemsByProduct(productId)| == if productId == "prod-1" then 45 else 0
  {
    var items := MockStockItems();
    var keep := (i: StockItem) => i.productId == productId && i.status == Available;
    SeedShape();
    if productId == "prod-1" {
      assert forall i :: 0 <= i < 45 ==> keep(items[i]);
      assert forall i :: 45 <= i < 50 ==> !keep(items[i]);
      FilterPrefix(items, keep, 45);
    } else {
      assert forall i :: 0 <= i < 50 ==> !keep(items[i]);
      FilterPrefix(items, keep, 0);
    }
  }

  predicate IsPendingOrder(o: ItemizedOrder) { o.status == AllPending }

  function EntryTotal(e: InvoicedEntry): Cents { e.totalValue }

  /**
    The seed dashboard figures are those of the seed: four products, one
    pending order, the 45 available units and their value, and the all-time
    totals of the seed entry and the seed exit.
   */
  lemma SeedDashboardConsistent()
    ensures MockDashboardStats == DashboardStats(
      |MockProducts|,
      |Filter(MockOrders, IsPendingOrder)|,
      AvailableValue(MockStockItems()),
      |AvailableItems(MockStockItems())|,
      Sum(MockStockEntries, EntryTotal),
      Sum(MockStockExits, ExitCost))
  {
    SeedAvailable();
  }

  function LineTotal(l: OrderLine): Cents { l.unitCost * l.quantity }

  /**
    Each seed order's lines are priced at unit cost times quantity, the
    order's total is the sum of its lines (36000.00 + 19000.00 = 55000.00 for
    the second), and the order's status is the common status of its lines.
   */
  lemma SeedOrdersConsistent()
    ensures forall o :: o in MockOrders ==>
      && o.totalValue == Sum(o.lines, LineTotal)
      && (forall l :: l in o.lines ==> l.totalValue == LineTotal(l) && Uniform(l.status) == o.status)
  {
  }

  function InvoiceLineTotal(l: InvoiceLine): Cents { l.totalValue }

  function InvoiceLineQuantity(l: InvoiceLine): int { l.quantity }

  function InvoiceTotal(inv: Invoice): Cents { inv.totalValue }

  /**
    The seed entry's totals agree with its invoice and its installments: its
    total is the invoice's, which is the line's quantity times the adjusted
    cost; its three installments are numbered 1..3 and add up to the total
    (41666.67 + 41666.67 + 41666.66 = 125000.00).
   */
  lemma SeedEntryTotals()
    ensures var line := SeedEntry.invoices[0].lines[0];
      && SeedEntry.totalValue == Sum(SeedEntry.invoices, InvoiceTotal) == Sum(SeedEntry.invoices[0].lines, InvoiceLineTotal)
      && line.totalValue == line.quantity * line.adjustedUnitCost
      && SeedEntry.totalQuantity == Sum(SeedEntry.invoices[0].lines, InvoiceLineQuantity)
      && |MockInstallments| == SeedEntry.installments
      && (forall k :: 0 <= k < |MockInstallments| ==>
            MockInstallments[k].installmentNumber == k + 1 && MockInstallments[k].stockEntryId == SeedEntry.id)
      && Sum(MockInstallments, InstallmentValue) == SeedEntry.totalValue
  {
  }

  /**
    Exactly `totalQuantity` seed units were exploded from the seed entry,
    each at the invoice line's adjusted cost.
   */
  lemma SeedEntryUnits()
    ensures var units := Filter(MockStockItems(), (i: StockItem) => i.stockEntryId == SeedEntry.id);
      && |units| == SeedEntry.totalQuantity
      && (forall u :: u in units ==> u.unitCost == SeedEntry.invoices[0].lines[0].adjustedUnitCost)
      && Sum(units, UnitCost) == SeedEntry.totalValue
  {
    var keep := (i: StockItem) => i.stockEntryId == SeedEntry.id;
    var s := MockStockItems();
    forall u | u in s ensures keep(u) && u.unitCost == 250000 {
      var i :| 0 <= i < 50 && s[i] == u;
      assert u == SeedItem(i);
    }
    FilterKeepsAll(s, keep);
    SumConst(s, UnitCost, 250000);
  }

  /** Each seed unit names the seed entry, and exactly the exited ones name the seed exit. */
  lemma SeedUnitsLinked()
    ensures forall i :: 0 <= i < 50 ==> LinkedUnit(MockStockItems()[i], ["entry-1"], ["exit-1"])
  {
    SeedShape();
  }

  /** The seed units are linked: exited units name the seed exit, all name the seed entry. */
  lemma SeedLinked()
    ensures Linked(MockStockItems(), [SeedEntry.id], ExitIds(MockStockExits))
  {
    assert ExitIds(MockStockExits) == ["exit-1"];
    SeedUnitsLinked();
    LinkedByIndex(MockStockItems(), ["entry-1"], ["exit-1"]);
  }
}
