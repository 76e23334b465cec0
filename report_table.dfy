/**
 * The date-driven report tables (utility, recharge and refund details): pick a day,
 * month and year, fetch that day's records, then search, sort and page through them.
 * The three components share this logic and differ only in their record type, the
 * default sort key, the error fallback and whether a total is shown; each is an
 * instance of `ReportTable`.
 */
module Reports {
  import opened Wrappers
  import opened Seqs
  import opened Text
  import opened Http
  import opened TableView

  /**
   * The search: some field's value, rendered with `String` and lower-cased, contains the
   * lower-cased term. `texts` lists the rendered values of every field of the record.
   */
  predicate AnyFieldContains(texts: seq<string>, term: string) {
    exists i :: 0 <= i < |texts| && Contains(Lower(texts[i]), Lower(term))
  }

  /** An empty search keeps every record, in order. */
  lemma EmptySearchKeepsAll<R>(records: seq<R>, texts: R -> seq<string>)
    requires forall r :: |texts(r)| > 0
    ensures Filter(records, (r: R) => AnyFieldContains(texts(r), "")) == records
  {
    forall i | 0 <= i < |records| ensures AnyFieldContains(texts(records[i]), "") {
      ContainsEmpty(Lower(texts(records[i])[0]));
    }
    FilterAllKept(records, (r: R) => AnyFieldContains(texts(r), ""));
  }

  /** `String(n).padStart(2, "0")` for a day or a month. */
  function Padded(n: int): string {
    PadStart2(IntToString(n))
  }

  /**
   * A day or month below 100 is sent as exactly two digits that read back as the number:
   * 1 to 9 get a leading zero, 10 and above are sent as they are.
   */
  lemma PaddedSpec(n: int)
    requires 0 <= n < 100
    ensures |Padded(n)| == 2 && AllDigits(Padded(n)) && DecimalValue(Padded(n)) == n
    ensures n < 10 ==> Padded(n) == "0" + NatToString(n)
    ensures n >= 10 ==> Padded(n) == NatToString(n)
  {
    DecimalRoundTrip(n);
    if n < 10 {
      LeadingZero(NatToString(n));
    }
  }

  /** The query string of the fetch request. */
  function DateQuery(day: int, month: int, year: int): string {
    "?date=" + Padded(day) + "&month=" + Padded(month) + "&year=" + IntToString(year)
  }

  /** Where each part of the query sits, for parts of the lengths the padding gives. */
  lemma QueryLayout(d: string, m: string, y: string)
    requires |d| == 2 && |m| == 2
    ensures var q := "?date=" + d + "&month=" + m + "&year=" + y;
            && |q| == 23 + |y| && q[..6] == "?date=" && q[6..8] == d && q[8..15] == "&month="
            && q[15..17] == m && q[17..23] == "&year=" && q[23..] == y
  {
    var q := "?date=" + d + "&month=" + m + "&year=" + y;
    assert q == "?date=" + d + "&month=" + m + ("&year=" + y);
    assert |"?date="| == 6 && |"&month="| == 7 && |"&year="| == 6;
  }

  /** The query names the day and the month in two digits each, then the year unpadded. */
  lemma DateQuerySpec(day: int, month: int, year: int)
    requires 1 <= day <= 31 && 1 <= month <= 12
    ensures var q := DateQuery(day, month, year);
            && |q| > 23 && q[..6] == "?date=" && q[8..15] == "&month=" && q[17..23] == "&year="
            && AllDigits(q[6..8]) && DecimalValue(q[6..8]) == day
            && AllDigits(q[15..17]) && DecimalValue(q[15..17]) == month
            && q[23..] == IntToString(year)
  {
    PaddedSpec(day);
    PaddedSpec(month);
    QueryLayout(Padded(day), Padded(month), IntToString(year));
  }

  /** The records after a fetch: the list the server sent on success, otherwise none. */
  function FetchedRecords<R>(reply: Reply<seq<R>>): seq<R> {
    match reply
    case Received(true, _, _, body) => if body.isSuccess && body.payload.Some? then body.payload.value else []
    case _ => []
  }

  /** The error after a fetch: the HTTP status line, or the thrown message or the fallback. */
  function FetchError<R>(reply: Reply<seq<R>>, fallback: string): Option<string> {
    match reply
    case Rejected(reason) => Some(if reason != "" then reason else fallback)
    case Received(ok, status, statusText, _) =>
      if ok then None else Some("API Error: " + NatToString(status) + " " + statusText)
  }

  /**
   * A fetch that fails shows a non-empty error and no rows; one that succeeds shows no
   * error and exactly the list the server sent, or no rows when it sent none.
   */
  lemma FetchSpec<R>(reply: Reply<seq<R>>, fallback: string)
    requires fallback != ""
    ensures FetchError(reply, fallback).Some? <==> !(reply.Received? && reply.ok)
    ensures FetchError(reply, fallback).Some? ==> FetchError(reply, fallback).value != "" && FetchedRecords(reply) == []
    ensures reply.Received? && reply.ok && reply.body.isSuccess && reply.body.payload.Some? ==>
              FetchedRecords(reply) == reply.body.payload.value
    ensures reply.Received? && reply.ok && !(reply.body.isSuccess && reply.body.payload.Some?) ==>
              FetchedRecords(reply) == []
  {
  }

  /** `totalAmount`: 0 before the first fetch, then the successful amounts of all fetched records. */
  function TotalAmount<R>(hasSearched: bool, records: seq<R>, status: R -> string, amount: R -> int): int {
    if hasSearched then SuccessTotal(records, status, amount) else 0
  }

  /**
   * The total ignores the search box: it is the sum of the amounts of the fetched records
   * whose status is "success" in any letter case.
   */
  lemma TotalAmountSpec<R>(hasSearched: bool, records: seq<R>, status: R -> string, amount: R -> int)
    ensures !hasSearched ==> TotalAmount(hasSearched, records, status, amount) == 0
    ensures hasSearched ==> TotalAmount(hasSearched, records, status, amount) == SumAmounts(Successful(records, status), amount)
  {
    SuccessTotalSpec(records, status, amount);
  }

  /** `filteredRecords` */
  function Search<R>(records: seq<R>, texts: R -> seq<string>, term: string): seq<R> {
    Filter(records, (r: R) => AnyFieldContains(texts(r), term))
  }

  /** `paginatedRecords` */
  function View<R, K>(records: seq<R>, texts: R -> seq<string>, term: string, field: (R, K) -> Value,
                      config: SortConfig<K>, page: int): seq<R> {
    Project(records, (r: R) => AnyFieldContains(texts(r), term), (r: R) => field(r, config.key), config.direction, page)
  }

  class ReportTable<R, K(==)> {
    /** The rendered values of a record's fields, as `Object.values` and `String` give them. */
    const texts: R -> seq<string>
    /** A record's value in a sortable column. */
    const field: (R, K) -> Value
    /** The message shown when a thrown error has none of its own. */
    const fallbackError: string

    var records: seq<R>
    var searchTerm: string
    var sortConfig: SortConfig<K>
    var currentPage: int
    var isLoading: bool
    var error: Option<string>
    var hasSearched: bool
    var isFormDirty: bool
    var year: int
    var month: int
    var day: int

    /**
     * Page numbers start at 1, a failed fetch leaves no rows, and nothing is fetched
     * before the first click on Fetch Data.
     */
    ghost predicate Valid()
      reads this
    {
      && currentPage >= 1
      && (error.Some? ==> records == [])
      && (!hasSearched ==> records == [] && error.None? && !isLoading)
      && (isLoading ==> error.None?)
    }

    /**
     * The first render: today's date selected, nothing fetched, the form dirty so that
     * Fetch Data is enabled, sorted by `defaultKey` descending.
     */
    constructor(texts: R -> seq<string>, field: (R, K) -> Value, defaultKey: K, fallbackError: string,
                today: (int, int, int))
      ensures Valid()
      ensures this.texts == texts && this.field == field && this.fallbackError == fallbackError
      ensures records == [] && searchTerm == "" && sortConfig == SortConfig(defaultKey, Descending)
      ensures currentPage == 1 && !isLoading && error.None? && !hasSearched && isFormDirty
      ensures (year, month, day) == today
    {
      this.texts, this.field, this.fallbackError := texts, field, fallbackError;
      records, searchTerm, sortConfig := [], "", SortConfig(defaultKey, Descending);
      currentPage, isLoading, error, hasSearched, isFormDirty := 1, false, None, false, true;
      year, month, day := today.0, today.1, today.2;
    }

    function Filtered(): seq<R>
      reads this
    {
      Search(records, texts, searchTerm)
    }

    /** `totalPages`, over the records the search keeps. */
    function PageCount(): nat
      reads this
    {
      TotalPages(|Filtered()|)
    }

    /** `paginatedRecords`: the rows on screen. */
    function Shown(): seq<R>
      reads this
    {
      View(records, texts, searchTerm, field, sortConfig, currentPage)
    }

    /** The Fetch Data button is enabled. */
    predicate CanFetch()
      reads this
    {
      !isLoading && isFormDirty
    }

    method SelectDay(d: int)
      requires Valid()
      modifies this
      ensures Valid()
      ensures day == d && isFormDirty
      ensures month == old(month) && year == old(year) && records == old(records) && error == old(error)
      ensures searchTerm == old(searchTerm) && sortConfig == old(sortConfig) && currentPage == old(currentPage)
      ensures isLoading == old(isLoading) && hasSearched == old(hasSearched)
    {
      day, isFormDirty := d, true;
    }

    method SelectMonth(m: int)
      requires Valid()
      modifies this
      ensures Valid()
      ensures month == m && isFormDirty
      ensures day == old(day) && year == old(year) && records == old(records) && error == old(error)
      ensures searchTerm == old(searchTerm) && sortConfig == old(sortConfig) && currentPage == old(currentPage)
      ensures isLoading == old(isLoading) && hasSearched == old(hasSearched)
    {
      month, isFormDirty := m, true;
    }

    method SelectYear(y: int)
      requires Valid()
      modifies this
      ensures Valid()
      ensures year == y && isFormDirty
      ensures day == old(day) && month == old(month) && records == old(records) && error == old(error)
      ensures searchTerm == old(searchTerm) && sortConfig == old(sortConfig) && currentPage == old(currentPage)
      ensures isLoading == old(isLoading) && hasSearched == old(hasSearched)
    {
      year, isFormDirty := y, true;
    }

    /**
     * `handleFetchClick` and `fetchRechargeData` up to the `await`: the form is clean again,
     * the table is in its searched state on page 1 and loading, and the request asks for
     * the selected date.
     */
    method HandleFetchClick() returns (query: string)
      requires Valid() && CanFetch()
      modifies this
      ensures Valid()
      ensures query == DateQuery(day, month, year)
      ensures !isFormDirty && hasSearched && currentPage == 1 && isLoading && error.None?
      ensures records == old(records) && searchTerm == old(searchTerm) && sortConfig == old(sortConfig)
      ensures (year, month, day) == old((year, month, day))
    {
      isFormDirty := false;
      hasSearched := true;
      currentPage := 1;
      isLoading := true;
      error := None;
      query := DateQuery(day, month, year);
    }

    /** The fetch settles: new rows or an error, and loading ends on every path. */
    method CompleteFetch(reply: Reply<seq<R>>)
      requires Valid() && isLoading
      modifies this
      ensures Valid()
      ensures records == FetchedRecords(reply) && error == FetchError(reply, fallbackError) && !isLoading
      ensures searchTerm == old(searchTerm) && sortConfig == old(sortConfig) && currentPage == old(currentPage)
      ensures hasSearched == old(hasSearched) && isFormDirty == old(isFormDirty)
      ensures (year, month, day) == old((year, month, day))
    {
      match reply {
        case Rejected(reason) =>
          error := Some(if reason != "" then reason else fallbackError);
          records := [];
        case Received(ok, status, statusText, body) =>
          if !ok {
            error := Some("API Error: " + NatToString(status) + " " + statusText);
            records := [];
          } else if body.isSuccess && body.payload.Some? {
            records := body.payload.value;
          } else {
            records := [];
          }
      }
      isLoading := false;
    }

    /** Typing in the search box goes back to page 1. */
    method SetSearchTerm(term: string)
      requires Valid()
      modifies this
      ensures Valid()
      ensures searchTerm == term && currentPage == 1
      ensures records == old(records) && sortConfig == old(sortConfig) && error == old(error)
      ensures isLoading == old(isLoading) && hasSearched == old(hasSearched) && isFormDirty == old(isFormDirty)
      ensures (year, month, day) == old((year, month, day))
    {
      searchTerm, currentPage := term, 1;
    }

    /** `handleSort` */
    method HandleSort(key: K)
      requires Valid()
      modifies this
      ensures Valid()
      ensures sortConfig == ToggleSort(old(sortConfig), key) && currentPage == 1
      ensures records == old(records) && searchTerm == old(searchTerm) && error == old(error)
      ensures isLoading == old(isLoading) && hasSearched == old(hasSearched) && isFormDirty == old(isFormDirty)
      ensures (year, month, day) == old((year, month, day))
    {
      sortConfig, currentPage := ToggleSort(sortConfig, key), 1;
    }

    method PreviousPage()
      requires Valid()
      modifies this
      ensures Valid()
      ensures currentPage == ClickPrevious(old(currentPage))
      ensures records == old(records) && searchTerm == old(searchTerm) && sortConfig == old(sortConfig)
      ensures error == old(error) && isLoading == old(isLoading) && hasSearched == old(hasSearched)
      ensures isFormDirty == old(isFormDirty) && (year, month, day) == old((year, month, day))
    {
      currentPage := ClickPrevious(currentPage);
    }

    method NextPage()
      requires Valid()
      modifies this
      ensures Valid()
      ensures currentPage == ClickNext(old(currentPage), old(PageCount()))
      ensures old(currentPage) <= old(PageCount()) ==> currentPage <= PageCount()
      ensures records == old(records) && searchTerm == old(searchTerm) && sortConfig == old(sortConfig)
      ensures error == old(error) && isLoading == old(isLoading) && hasSearched == old(hasSearched)
      ensures isFormDirty == old(isFormDirty) && (year, month, day) == old((year, month, day))
    {
      currentPage := ClickNext(currentPage, PageCount());
    }
  }

  /**
   * A search that keeps some record always shows a non-empty first page, and the pages
   * from 1 to the page count are exactly the ones with rows.
   */
  lemma ShownPagesSpec<R>(records: seq<R>, keep: R -> bool, key: R -> Value, dir: Direction, page: int)
    requires page >= 1
    ensures Project(records, keep, key, dir, page) != [] <==> page <= TotalPages(|Filter(records, keep)|)
  {
    var kept := Filter(records, keep);
    SortBySpec(kept, key, dir);
    assert |SortBy(kept, key, dir)| == |multiset(SortBy(kept, key, dir))| == |kept|;
    TotalPagesSpec(SortBy(kept, key, dir), page);
  }
}
