/**
 * The refund details report: one day's refunds. Every field arrives as a string, so
 * every column sorts as text; the table starts sorted by ledger id descending, shows
 * no total, and renders no search box, so its search term stays empty.
 */
module RefundDetails {
  import opened Seqs
  import opened Text
  import opened TableView
  import opened Reports

  datatype RefundRecord = RefundRecord(
    ledgerId: string,
    productId: string,
    traceId: string,
    fibePeId: string,
    paymentId: string,
    payout: string,
    discount: string,
    surcharge: string,
    refundAmount: string,
    insertOn: string)

  datatype RefundKey =
    | Ledger_Id | Product_Id | Trace_Id | FibePe_Id | Payment_Id
    | Payout | Discount | Surcharge | RefundAmount | InsertOn

  /** Every column holds text, so the comparator orders by characters whatever the column. */
  function Field(r: RefundRecord, k: RefundKey): (v: Value)
    ensures v.Str? && v.s in Texts(r)
  {
    match k
    case Ledger_Id => Str(r.ledgerId)
    case Product_Id => Str(r.productId)
    case Trace_Id => Str(r.traceId)
    case FibePe_Id => Str(r.fibePeId)
    case Payment_Id => Str(r.paymentId)
    case Payout => Str(r.payout)
    case Discount => Str(r.discount)
    case Surcharge => Str(r.surcharge)
    case RefundAmount => Str(r.refundAmount)
    case InsertOn => Str(r.insertOn)
  }

  /** `Object.values(record)`; every value is already a string. */
  function Texts(r: RefundRecord): seq<string> {
    [r.ledgerId, r.productId, r.traceId, r.fibePeId, r.paymentId,
     r.payout, r.discount, r.surcharge, r.refundAmount, r.insertOn]
  }

  const FallbackError := "An unknown error occurred"

  /**
   * Ledger ids sort as text: in the default descending order "9" comes before "10",
   * the reverse of their numeric order.
   */
  lemma LedgerIdsSortAsText(r9: RefundRecord, r10: RefundRecord)
    requires r9.ledgerId == "9" && r10.ledgerId == "10"
    ensures SortBy([r10, r9], (r: RefundRecord) => Field(r, Ledger_Id), Descending) == [r9, r10]
    ensures SortBy([r9, r10], (r: RefundRecord) => Field(r, Ledger_Id), Descending) == [r9, r10]
  {
    NumeralStringsCompareAsText();
    var key := (r: RefundRecord) => Field(r, Ledger_Id);
    assert [r10, r9][1..] == [r9] && [r9, r10][1..] == [r10];
    assert SortBy([r9], key, Descending) == [r9];
    assert SortBy([r10], key, Descending) == [r10];
  }

  /** With no search box the term stays empty, and every fetched refund is listed. */
  lemma NoSearchListsAll(records: seq<RefundRecord>)
    ensures Search(records, Texts, "") == records
  {
    EmptySearchKeepsAll(records, Texts);
  }

  /** The component's first render on `today`. */
  method NewTable(today: (int, int, int)) returns (t: ReportTable<RefundRecord, RefundKey>)
    ensures fresh(t) && t.Valid()
    ensures t.texts == Texts && t.field == Field && t.fallbackError == FallbackError
    ensures t.sortConfig == SortConfig(Ledger_Id, Descending) && t.records == [] && t.searchTerm == ""
    ensures !t.hasSearched && t.isFormDirty && (t.year, t.month, t.day) == today
  {
    t := new ReportTable(Texts, Field, Ledger_Id, FallbackError, today);
  }
}
