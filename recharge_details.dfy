/**
 * The recharge details report: one day's mobile and DTH recharges, searchable over every
 * field, sorted by ledger id descending at first, with the total of the successful
 * recharges above the table. Unlike the utility report it keeps nothing across reloads.
 */
module RechargeDetails {
  import opened Seqs
  import opened Text
  import opened TableView
  import opened Reports

  datatype RechargeRecord = RechargeRecord(
    ledgerId: int,
    fibepeId: int,
    number: string,
    operatorName: string,
    circleName: string,
    serviceType: string,
    amount: int,
    finalStatus: string,
    createdDate: string,
    operatorRefId: string)

  datatype RechargeKey =
    | LedgerId | FibepeId | Number | OperatorName | CircleName
    | ServiceType | Amount | FinalStatus | CreatedDate | OperatorRefId

  function Field(r: RechargeRecord, k: RechargeKey): Value {
    match k
    case LedgerId => Num(r.ledgerId)
    case FibepeId => Num(r.fibepeId)
    case Number => Str(r.number)
    case OperatorName => Str(r.operatorName)
    case CircleName => Str(r.circleName)
    case ServiceType => Str(r.serviceType)
    case Amount => Num(r.amount)
    case FinalStatus => Str(r.finalStatus)
    case CreatedDate => Str(r.createdDate)
    case OperatorRefId => Str(r.operatorRefId)
  }

  /** `Object.values(record)`, each passed through `String`. */
  function Texts(r: RechargeRecord): seq<string> {
    [IntToString(r.ledgerId), IntToString(r.fibepeId), r.number, r.operatorName, r.circleName,
     r.serviceType, IntToString(r.amount), r.finalStatus, r.createdDate, r.operatorRefId]
  }

  const FallbackError := "An unknown error occurred while fetching data."

  /** The search finds a record through any of its ten fields, numbers by their decimal text. */
  lemma SearchSpec(r: RechargeRecord, term: string)
    ensures var t := Lower(term);
            AnyFieldContains(Texts(r), term) <==>
              || Contains(Lower(IntToString(r.ledgerId)), t) || Contains(Lower(IntToString(r.fibepeId)), t)
              || Contains(Lower(r.number), t) || Contains(Lower(r.operatorName), t)
              || Contains(Lower(r.circleName), t) || Contains(Lower(r.serviceType), t)
              || Contains(Lower(IntToString(r.amount)), t) || Contains(Lower(r.finalStatus), t)
              || Contains(Lower(r.createdDate), t) || Contains(Lower(r.operatorRefId), t)
  {
    var ts, t := Texts(r), Lower(term);
    if Contains(Lower(IntToString(r.ledgerId)), t) { assert Contains(Lower(ts[0]), t); }
    if Contains(Lower(IntToString(r.fibepeId)), t) { assert Contains(Lower(ts[1]), t); }
    if Contains(Lower(r.number), t) { assert Contains(Lower(ts[2]), t); }
    if Contains(Lower(r.operatorName), t) { assert Contains(Lower(ts[3]), t); }
    if Contains(Lower(r.circleName), t) { assert Contains(Lower(ts[4]), t); }
    if Contains(Lower(r.serviceType), t) { assert Contains(Lower(ts[5]), t); }
    if Contains(Lower(IntToString(r.amount)), t) { assert Contains(Lower(ts[6]), t); }
    if Contains(Lower(r.finalStatus), t) { assert Contains(Lower(ts[7]), t); }
    if Contains(Lower(r.createdDate), t) { assert Contains(Lower(ts[8]), t); }
    if Contains(Lower(r.operatorRefId), t) { assert Contains(Lower(ts[9]), t); }
  }

  function StatusOf(r: RechargeRecord): string { r.finalStatus }

  function AmountOf(r: RechargeRecord): int { r.amount }

  /** The total shown above the table: `TotalAmount` over this table's status and amount fields. */
  function Total(hasSearched: bool, records: seq<RechargeRecord>): int {
    TotalAmount(hasSearched, records, StatusOf, AmountOf)
  }

  /** The component's first render on `today`. */
  method NewTable(today: (int, int, int)) returns (t: ReportTable<RechargeRecord, RechargeKey>)
    ensures fresh(t) && t.Valid()
    ensures t.texts == Texts && t.field == Field && t.fallbackError == FallbackError
    ensures t.sortConfig == SortConfig(LedgerId, Descending) && t.records == [] && !t.hasSearched && t.isFormDirty
    ensures (t.year, t.month, t.day) == today
  {
    t := new ReportTable(Texts, Field, LedgerId, FallbackError, today);
  }
}
