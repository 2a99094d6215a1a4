/**
  The per-product stock report: one row per catalogued product that still
  has available units, with the number of those units and the sum of their
  own costs, and a grand total over the rows.
 */
module StockReport {
  import opened Seqs
  import opened Types

  /** One line of the report. */
  datatype ReportRow = ReportRow(
    product: string,
    supplier: string,
    unitType: string,
    quantity: nat,
    unitCost: Cents,
    totalValue: Cents)

  /**
    The row for one product over the available units: their number and the
    sum of their own costs; the displayed unit cost is the product's current one.
   */
  function RowOf(available: seq<StockItem>): Product -> ReportRow
  {
    (p: Product) =>
      var units := Filter(available, OfProduct(p.id));
      ReportRow(p.name, p.supplier, p.unitType, |units|, p.unitCost, Sum(units, UnitCost))
  }

  predicate HasQuantity(r: ReportRow) { r.quantity > 0 }

  function RowValue(r: ReportRow): Cents { r.totalValue }

  /**
    `reportData`: the product rows over the available units, empty rows
    dropped; the rows keep the product order, so no product has two.
   */
  function ReportData(items: seq<StockItem>, ps: seq<Product>): (rows: seq<ReportRow>)
    ensures |rows| <= |ps|
    ensures forall r :: r in rows ==> r.quantity > 0
    ensures IsSublist(rows, Map(ps, RowOf(AvailableItems(items))))
  {
    FilterIsSublist(Map(ps, RowOf(AvailableItems(items))), HasQuantity);
    Filter(Map(ps, RowOf(AvailableItems(items))), HasQuantity)
  }

  /** `grandTotal`: the sum of the rows' values. */
  function GrandTotal(items: seq<StockItem>, ps: seq<Product>): Cents
  {
    Sum(ReportData(items, ps), RowValue)
  }

  /** The units still available of one product. */
  function AvailableOf(productId: string): StockItem -> bool
  {
    (i: StockItem) => i.status == Available && i.productId == productId
  }

  /**
    Each product's row counts exactly the available units of that product and
    sums their own costs; exited units never count.
   */
  lemma RowCountsAvailableUnits(items: seq<StockItem>, p: Product)
    ensures RowOf(AvailableItems(items))(p).quantity == |Filter(items, AvailableOf(p.id))|
    ensures RowOf(AvailableItems(items))(p).totalValue == Sum(Filter(items, AvailableOf(p.id)), UnitCost)
    ensures RowOf(AvailableItems(items))(p).unitCost == p.unitCost
  {
    FilterFilter(items, IsAvailable, OfProduct(p.id), AvailableOf(p.id));
  }

  /**
    The rows follow the product list: they are the product rows with the empty
    ones dropped, and the row of every product with available units is there.
   */
  lemma ReportRowsFollowProducts(items: seq<StockItem>, ps: seq<Product>)
    ensures IsSublist(ReportData(items, ps), Map(ps, RowOf(AvailableItems(items))))
    ensures forall k :: 0 <= k < |ps| && RowOf(AvailableItems(items))(ps[k]).quantity > 0 ==>
      RowOf(AvailableItems(items))(ps[k]) in ReportData(items, ps)
  {
    var all := Map(ps, RowOf(AvailableItems(items)));
    FilterIsSublist(all, HasQuantity);
    FilterMembership(all, HasQuantity);
    forall k | 0 <= k < |ps| ensures RowOf(AvailableItems(items))(ps[k]) == all[k] {
    }
  }

  /** Dropping the empty rows does not change the total: they are worth nothing. */
  lemma GrandTotalOverAllProducts(items: seq<StockItem>, ps: seq<Product>)
    ensures GrandTotal(items, ps) == Sum(Map(ps, RowOf(AvailableItems(items))), RowValue)
  {
    var all := Map(ps, RowOf(AvailableItems(items)));
    forall r | r in all && !HasQuantity(r) ensures RowValue(r) == 0 {
      var k :| 0 <= k < |ps| && all[k] == r;
      assert Filter(AvailableItems(items), OfProduct(ps[k].id)) == [];
    }
    FilterDropsZeros(all, HasQuantity, RowValue);
  }

  /** The units whose product is in the list of ids. */
  function InCatalogue(ids: seq<string>): StockItem -> bool
  {
    (i: StockItem) => i.productId in ids
  }

  /** Summing the product rows sums the units of catalogued products, each once. */
  lemma {:induction false} RowsSumCatalogued(available: seq<StockItem>, ps: seq<Product>)
    requires Distinct(ProductIds(ps))
    ensures Sum(Map(ps, RowOf(available)), RowValue) ==
      Sum(Filter(available, InCatalogue(ProductIds(ps))), UnitCost)
  {
    if ps == [] {
      FilterKeepsNone(available, InCatalogue(ProductIds(ps)));
    } else {
      var rest := ps[1..];
      assert ProductIds(ps) == [ps[0].id] + ProductIds(rest);
      assert ps[0].id !in ProductIds(rest) by {
        forall j | 0 <= j < |rest| ensures ProductIds(rest)[j] != ps[0].id {
          assert ProductIds(ps)[0] != ProductIds(ps)[j + 1];
        }
      }
      assert Distinct(ProductIds(rest)) by {
        forall i, j | 0 <= i < j < |rest| ensures ProductIds(rest)[i] != ProductIds(rest)[j] {
          assert ProductIds(ps)[i + 1] != ProductIds(ps)[j + 1];
        }
      }
      RowsSumCatalogued(available, rest);
      MapCons(ps, RowOf(available));
      FilterSplit(available, InCatalogue(ProductIds(ps)), OfProduct(ps[0].id),
        InCatalogue(ProductIds(rest)), UnitCost);
    }
  }

  /**
    With distinct product ids, the grand total is the value of the available
    units whose product is still catalogued: units of deleted products drop out.
   */
  lemma GrandTotalIsCataloguedValue(items: seq<StockItem>, ps: seq<Product>)
    requires Distinct(ProductIds(ps))
    ensures GrandTotal(items, ps) == Sum(Filter(AvailableItems(items), InCatalogue(ProductIds(ps))), UnitCost)
  {
    GrandTotalOverAllProducts(items, ps);
    RowsSumCatalogued(AvailableItems(items), ps);
  }

  /** When every available unit's product is catalogued, the report total is the stock value. */
  lemma GrandTotalIsStockValue(items: seq<StockItem>, ps: seq<Product>)
    requires Distinct(ProductIds(ps))
    requires forall x :: x in items && x.status == Available ==> x.productId in ProductIds(ps)
    ensures GrandTotal(items, ps) == AvailableValue(items)
  {
    GrandTotalIsCataloguedValue(items, ps);
    FilterKeepsAll(AvailableItems(items), InCatalogue(ProductIds(ps)));
  }
}
