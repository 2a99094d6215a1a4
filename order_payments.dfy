/**
  The payments screen: the installments narrowed by a search on the order
  number or product name of the stock entry they belong to and by a
  paid/pending selector, and the pending and paid totals of what is shown.
 */
module OrderPayments {
  import opened Wrappers
  import opened Seqs
  import opened Text
  import opened Types

  /** The status selector. */
  datatype PaymentFilter = AllPayments | PaidOnly | PendingOnly

  /** `entries.find(e => e.id === stockEntryId)`. */
  function EntryFor(es: seq<StockEntry>, stockEntryId: string): (r: Option<StockEntry>)
    ensures r.None? <==> stockEntryId !in EntryIds(es)
    ensures r.Some? ==> r.value in es && r.value.id == stockEntryId
    ensures r.Some? ==> exists k :: 0 <= k < |es| && es[k] == r.value && stockEntryId !in EntryIds(es)[..k]
  {
    match IndexOf(EntryIds(es), stockEntryId)
    case None => None
    case Some(k) => Some(es[k])
  }

  /**
    `entry?.orderNumber...includes(term) || entry?.productName...includes(term)`:
    false when the installment's entry is missing.
   */
  predicate MatchesSearch(es: seq<StockEntry>, term: string, inst: PaymentInstallment)
  {
    match EntryFor(es, inst.stockEntryId)
    case None => false
    case Some(e) =>
      Contains(Lower(e.orderNumber), Lower(term)) || Contains(Lower(e.productName), Lower(term))
  }

  /** `isPaid`: the payment date is not null. */
  predicate IsPaid(inst: PaymentInstallment) { inst.paidAt.Some? }

  /** The selector as written: 'all', or paid and not paid by `isPaid`. */
  predicate MatchesStatus(f: PaymentFilter, inst: PaymentInstallment)
  {
    || f == AllPayments
    || (f == PaidOnly && IsPaid(inst))
    || (f == PendingOnly && !IsPaid(inst))
  }

  function Shown(es: seq<StockEntry>, term: string, f: PaymentFilter): PaymentInstallment -> bool
  {
    (inst: PaymentInstallment) => MatchesSearch(es, term, inst) && MatchesStatus(f, inst)
  }

  /** `filteredInstallments`. */
  function FilteredInstallments(insts: seq<PaymentInstallment>, es: seq<StockEntry>, term: string, f: PaymentFilter)
    : (r: seq<PaymentInstallment>)
    ensures |r| <= |insts|
  {
    Filter(insts, Shown(es, term, f))
  }

  /** The totals test the payment date for truthiness: null and the empty string are both falsy. */
  predicate PaidAtTruthy(inst: PaymentInstallment) { inst.paidAt.Some? && inst.paidAt.value != "" }

  predicate PaidAtFalsy(inst: PaymentInstallment) { !PaidAtTruthy(inst) }

  /** `totalPending`. */
  function TotalPending(shown: seq<PaymentInstallment>): Cents
  {
    Sum(Filter(shown, PaidAtFalsy), InstallmentValue)
  }

  /** `totalPaid`. */
  function TotalPaid(shown: seq<PaymentInstallment>): Cents
  {
    Sum(Filter(shown, PaidAtTruthy), InstallmentValue)
  }

  /** An installment whose entry is not loaded is never shown, whatever the term and selector. */
  lemma OrphansNeverShown(insts: seq<PaymentInstallment>, es: seq<StockEntry>, term: string, f: PaymentFilter,
                          inst: PaymentInstallment)
    requires inst.stockEntryId !in EntryIds(es)
    ensures inst !in FilteredInstallments(insts, es, term, f)
  {
  }

  /**
    The shown installments keep the list order; each matches the search, and
    the selector keeps only paid ones, only unpaid ones, or excludes nothing.
   */
  lemma FilteredInstallmentsSound(insts: seq<PaymentInstallment>, es: seq<StockEntry>, term: string, f: PaymentFilter)
    ensures IsSublist(FilteredInstallments(insts, es, term, f), insts)
    ensures forall x :: x in FilteredInstallments(insts, es, term, f) <==>
      x in insts && MatchesSearch(es, term, x) && MatchesStatus(f, x)
    ensures f == PaidOnly ==> forall x :: x in FilteredInstallments(insts, es, term, f) ==> x.paidAt.Some?
    ensures f == PendingOnly ==> forall x :: x in FilteredInstallments(insts, es, term, f) ==> x.paidAt.None?
    ensures f == AllPayments ==> forall x :: x in FilteredInstallments(insts, es, term, f) <==>
      x in insts && MatchesSearch(es, term, x)
  {
    FilterIsSublist(insts, Shown(es, term, f));
    FilterMembership(insts, Shown(es, term, f));
  }

  /** The pending and paid totals split the value of what is shown. */
  lemma TotalsSplitShownValue(shown: seq<PaymentInstallment>)
    ensures TotalPending(shown) + TotalPaid(shown) == Sum(shown, InstallmentValue)
  {
    FilterPartition(shown, PaidAtFalsy, PaidAtTruthy, InstallmentValue);
  }

  /** Under the 'pending' selector nothing shown counts as paid. */
  lemma PendingViewHasNoPaidTotal(insts: seq<PaymentInstallment>, es: seq<StockEntry>, term: string)
    ensures TotalPaid(FilteredInstallments(insts, es, term, PendingOnly)) == 0
  {
    var shown := FilteredInstallments(insts, es, term, PendingOnly);
    FilteredInstallmentsSound(insts, es, term, PendingOnly);
    FilterKeepsNone(shown, PaidAtTruthy);
  }

  /**
    Under the 'paid' selector nothing shown counts as pending, provided no
    payment date is the empty string.
   */
  lemma PaidViewHasNoPendingTotal(insts: seq<PaymentInstallment>, es: seq<StockEntry>, term: string)
    requires forall x :: x in insts ==> x.paidAt != Some("")
    ensures TotalPending(FilteredInstallments(insts, es, term, PaidOnly)) == 0
  {
    var shown := FilteredInstallments(insts, es, term, PaidOnly);
    FilteredInstallmentsSound(insts, es, term, PaidOnly);
    FilterKeepsNone(shown, PaidAtFalsy);
  }

  /**
    The proviso above is needed: an installment paid on the empty date is
    shown as paid by the selector yet added to the pending total.
   */
  lemma EmptyPaymentDateCountsAsPending(e: StockEntry, inst: PaymentInstallment)
    requires inst.stockEntryId == e.id && inst.paidAt == Some("") && inst.value > 0
    ensures FilteredInstallments([inst], [e], "", PaidOnly) == [inst]
    ensures TotalPending(FilteredInstallments([inst], [e], "", PaidOnly)) == inst.value
  {
    assert EntryIds([e]) == [e.id];
    assert Lower("") == "";
    ContainsEmpty(Lower(e.orderNumber));
    assert Shown([e], "", PaidOnly)(inst);
    assert Filter([inst], PaidAtFalsy) == [inst];
    assert Sum([inst], InstallmentValue) == inst.value + Sum([], InstallmentValue);
  }
}
