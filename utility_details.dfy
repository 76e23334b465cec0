/**
 * The utility-bill details report: one day's utility payments, searchable over every
 * field (the creation date included, though it has no column), sorted by ledger id
 * descending at first, with the total of the successful payments above the table.
 */
module UtilityDetails {
  import opened Seqs
  import opened Text
  import opened TableView
  import opened Reports

  datatype UtilityRecord = UtilityRecord(
    ledgerId: int,
    fibepeId: int,
    consumerNumber: string,
    categoryName: string,
    amount: int,
    confirmationNumber: string,
    finalStatus: string,
    createdDate: string,
    customerName: string,
    orderNumber: string)

  datatype UtilityKey =
    | LedgerId | FibepeId | ConsumerNumber | CategoryName | Amount
    | ConfirmationNumber | FinalStatus | CreatedDate | CustomerName | OrderNumber

  function Field(r: UtilityRecord, k: UtilityKey): Value {
    match k
    case LedgerId => Num(r.ledgerId)
    case FibepeId => Num(r.fibepeId)
    case ConsumerNumber => Str(r.consumerNumber)
    case CategoryName => Str(r.categoryName)
    case Amount => Num(r.amount)
    case ConfirmationNumber => Str(r.confirmationNumber)
    case FinalStatus => Str(r.finalStatus)
    case CreatedDate => Str(r.createdDate)
    case CustomerName => Str(r.customerName)
    case OrderNumber => Str(r.orderNumber)
  }

  /** `Object.values(record)`, each passed through `String`. */
  function Texts(r: UtilityRecord): seq<string> {
    [IntToString(r.ledgerId), IntToString(r.fibepeId), r.consumerNumber, r.categoryName, IntToString(r.amount),
     r.confirmationNumber, r.finalStatus, r.createdDate, r.customerName, r.orderNumber]
  }

  const FallbackError := "An unknown error occurred while fetching data."

  /** The search finds a record through any of its ten fields, numbers by their decimal text. */
  lemma SearchSpec(r: UtilityRecord, term: string)
    ensures var t := Lower(term);
            AnyFieldContains(Texts(r), term) <==>
              || Contains(Lower(IntToString(r.ledgerId)), t) || Contains(Lower(IntToString(r.fibepeId)), t)
              || Contains(Lower(r.consumerNumber), t) || Contains(Lower(r.categoryName), t)
              || Contains(Lower(IntToString(r.amount)), t) || Contains(Lower(r.confirmationNumber), t)
              || Contains(Lower(r.finalStatus), t) || Contains(Lower(r.createdDate), t)
              || Contains(Lower(r.customerName), t) || Contains(Lower(r.orderNumber), t)
  {
    var ts, t := Texts(r), Lower(term);
    if Contains(Lower(r.createdDate), t) { assert Contains(Lower(ts[7]), t); }
    if Contains(Lower(r.customerName), t) { assert Contains(Lower(ts[8]), t); }
    if Contains(Lower(r.orderNumber), t) { assert Contains(Lower(ts[9]), t); }
    if Contains(Lower(r.finalStatus), t) { assert Contains(Lower(ts[6]), t); }
    if Contains(Lower(r.confirmationNumber), t) { assert Contains(Lower(ts[5]), t); }
    if Contains(Lower(IntToString(r.amount)), t) { assert Contains(Lower(ts[4]), t); }
    if Contains(Lower(r.categoryName), t) { assert Contains(Lower(ts[3]), t); }
    if Contains(Lower(r.consumerNumber), t) { assert Contains(Lower(ts[2]), t); }
    if Contains(Lower(IntToString(r.fibepeId)), t) { assert Contains(Lower(ts[1]), t); }
    if Contains(Lower(IntToString(r.ledgerId)), t) { assert Contains(Lower(ts[0]), t); }
  }

  function StatusOf(r: UtilityRecord): string { r.finalStatus }

  function AmountOf(r: UtilityRecord): int { r.amount }

  /** The total shown above the table: `TotalAmount` over this table's status and amount fields. */
  function Total(hasSearched: bool, records: seq<UtilityRecord>): int {
    TotalAmount(hasSearched, records, StatusOf, AmountOf)
  }

  /** The component's first render on `today`. */
  method NewTable(today: (int, int, int)) returns (t: ReportTable<UtilityRecord, UtilityKey>)
    ensures fresh(t) && t.Valid()
    ensures t.texts == Texts && t.field == Field && t.fallbackError == FallbackError
    ensures t.sortConfig == SortConfig(LedgerId, Descending) && t.records == [] && !t.hasSearched && t.isFormDirty
    ensures (t.year, t.month, t.day) == today
  {
    t := new ReportTable(Texts, Field, LedgerId, FallbackError, today);
  }
}
