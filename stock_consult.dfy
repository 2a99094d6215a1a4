/**
  The stock consultation screen: the unit list narrowed by a case-insensitive
  search on product name or supplier, a status filter and a product filter,
  and three summary figures over the whole unit list.
 */
module StockConsult {
  import opened Seqs
  import opened Text
  import opened Types

  /** The status selector: every status, or only one. */
  datatype StatusFilter = AllStatuses | Only(status: ItemStatus)

  /** The product selector value that filters nothing. */
  const AllProducts: string := "all"

  /** The search term occurs in the product name or the supplier, ignoring case. */
  predicate MatchesSearch(term: string, x: StockItem)
  {
    Contains(Lower(x.productName), Lower(term)) || Contains(Lower(x.supplier), Lower(term))
  }

  /** The predicate of `filteredItems`: search, status and product all match. */
  function Shown(term: string, statusFilter: StatusFilter, productFilter: string): StockItem -> bool
  {
    (x: StockItem) =>
      && MatchesSearch(term, x)
      && (statusFilter.AllStatuses? || x.status == statusFilter.status)
      && (productFilter == AllProducts || x.productId == productFilter)
  }

  /** `filteredItems`. */
  function FilteredItems(items: seq<StockItem>, term: string, statusFilter: StatusFilter, productFilter: string)
    : (r: seq<StockItem>)
    ensures |r| <= |items|
  {
    Filter(items, Shown(term, statusFilter, productFilter))
  }

  /** `availableCount`. */
  function AvailableCount(items: seq<StockItem>): nat
  {
    |AvailableItems(items)|
  }

  /** `exitedCount`. */
  function ExitedCount(items: seq<StockItem>): nat
  {
    |Filter(items, IsExited)|
  }

  /**
    Every unit is counted once by the two counters. The screen's total value is
    the stock value (`AvailableValue`), computed from the whole list whatever
    the search and the filters.
   */
  lemma CountsCoverAllUnits(items: seq<StockItem>)
    ensures AvailableCount(items) + ExitedCount(items) == |items|
  {
    StatusPartition(items);
  }

  /** The shown units keep the list order, and each satisfies the selected filters. */
  lemma FilteredItemsSound(items: seq<StockItem>, term: string, statusFilter: StatusFilter, productFilter: string)
    ensures IsSublist(FilteredItems(items, term, statusFilter, productFilter), items)
    ensures forall x :: x in FilteredItems(items, term, statusFilter, productFilter) <==>
      && x in items && MatchesSearch(term, x)
      && (statusFilter.AllStatuses? || x.status == statusFilter.status)
      && (productFilter == AllProducts || x.productId == productFilter)
  {
    FilterIsSublist(items, Shown(term, statusFilter, productFilter));
    FilterMembership(items, Shown(term, statusFilter, productFilter));
  }

  /** With an empty search and both selectors on "all", every unit is shown. */
  lemma NoFilterShowsAll(items: seq<StockItem>)
    ensures FilteredItems(items, "", AllStatuses, AllProducts) == items
  {
    assert Lower("") == "";
    forall x | x in items ensures Shown("", AllStatuses, AllProducts)(x) {
      ContainsEmpty(Lower(x.productName));
    }
    FilterKeepsAll(items, Shown("", AllStatuses, AllProducts));
  }

  /** The search ignores the case of the term: typing it in lower case changes nothing. */
  lemma SearchIgnoresTermCase(items: seq<StockItem>, term: string, statusFilter: StatusFilter, productFilter: string)
    ensures FilteredItems(items, Lower(term), statusFilter, productFilter) ==
      FilteredItems(items, term, statusFilter, productFilter)
  {
    LowerIdempotent(term);
    FilterSamePredicate(items, Shown(Lower(term), statusFilter, productFilter), Shown(term, statusFilter, productFilter));
  }

  /**
    A unit whose product name or supplier literally contains the term is shown
    whenever it passes the two selectors.
   */
  lemma SearchFindsLiteralMatch(items: seq<StockItem>, x: StockItem, term: string,
                                statusFilter: StatusFilter, productFilter: string)
    requires x in items
    requires Contains(x.productName, term) || Contains(x.supplier, term)
    requires statusFilter.AllStatuses? || x.status == statusFilter.status
    requires productFilter == AllProducts || x.productId == productFilter
    ensures x in FilteredItems(items, term, statusFilter, productFilter)
  {
    if Contains(x.productName, term) {
      ContainsLower(x.productName, term);
    } else {
      ContainsLower(x.supplier, term);
    }
    FilterComplete(items, Shown(term, statusFilter, productFilter), x);
  }
}
