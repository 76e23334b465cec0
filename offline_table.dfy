/**
 * The offline DTH data table: a polled list of offline recharge records that an operator
 * works through one at a time. "Proceed" locks a record on the server and opens the
 * Process Data modal for it; saving, refunding or closing the modal ends that session.
 * Every handler is one atomic step; the one handler with an `await` in the middle,
 * the lock request, is split at the `await` into `BeginLock` and `CompleteLock`.
 */
module OfflineTable {
  import opened Wrappers
  import opened Seqs
  import opened Text
  import opened Http
  import opened TableView

  datatype OfflineRecord = OfflineRecord(
    recordId: int,
    number: string,
    operatorName: string,
    circle: string,
    amount: int,
    serviceNumber: int,
    rechargeUserId: int)

  /** `keyof OfflineDTHRecord` */
  datatype OfflineKey = RecordID | Number | OperatorName | Circle | Amount | ServiceNumber | RechargeUserId

  function Field(r: OfflineRecord, k: OfflineKey): Value {
    match k
    case RecordID => Num(r.recordId)
    case Number => Str(r.number)
    case OperatorName => Str(r.operatorName)
    case Circle => Str(r.circle)
    case Amount => Num(r.amount)
    case ServiceNumber => Num(r.serviceNumber)
    case RechargeUserId => Num(r.rechargeUserId)
  }

  /** The search box: only the operator, the number and the circle are searched. */
  predicate Matches(r: OfflineRecord, term: string) {
    var t := Lower(term);
    Contains(Lower(r.operatorName), t) || Contains(Lower(r.number), t) || Contains(Lower(r.circle), t)
  }

  /** The `paginatedRecords` memo. */
  function Visible(records: seq<OfflineRecord>, term: string, config: SortConfig<OfflineKey>, page: int): seq<OfflineRecord> {
    Project(records, (r: OfflineRecord) => Matches(r, term), (r: OfflineRecord) => Field(r, config.key), config.direction, page)
  }

  /**
   * A record is found exactly when the lower-cased term occurs in its lower-cased operator
   * name, number or circle; amounts and ids are never searched.
   */
  lemma MatchesSpec(r: OfflineRecord, term: string)
    ensures Matches(r, term) <==>
      || (exists i :: OccursAt(Lower(r.operatorName), Lower(term), i))
      || (exists i :: OccursAt(Lower(r.number), Lower(term), i))
      || (exists i :: OccursAt(Lower(r.circle), Lower(term), i))
  {
    ContainsIffOccurs(Lower(r.operatorName), Lower(term));
    ContainsIffOccurs(Lower(r.number), Lower(term));
    ContainsIffOccurs(Lower(r.circle), Lower(term));
  }

  /** An empty search box keeps every record, in order. */
  lemma EmptySearchKeepsAll(records: seq<OfflineRecord>)
    ensures Filter(records, (r: OfflineRecord) => Matches(r, "")) == records
  {
    forall i | 0 <= i < |records| ensures Matches(records[i], "") {
      ContainsEmpty(Lower(records[i].operatorName));
    }
    FilterAllKept(records, (r: OfflineRecord) => Matches(r, ""));
  }

  /**
   * Every shown row is a stored record that matches the search, and the page is the
   * page-th block of ten of the stable ordering by the configured key.
   */
  lemma VisibleSpec(records: seq<OfflineRecord>, term: string, config: SortConfig<OfflineKey>, page: int)
    requires page >= 1
    ensures forall x :: x in Visible(records, term, config, page) ==> x in records && Matches(x, term)
    ensures var kept := Filter(records, (r: OfflineRecord) => Matches(r, term));
            var key := (r: OfflineRecord) => Field(r, config.key);
            forall s :: multiset(s) == multiset(kept) && Sorted(s, key, config.direction) && StableFrom(s, kept, key) ==>
              Visible(records, term, config, page) == PageOf(s, page)
  {
    ProjectSpec(records, (r: OfflineRecord) => Matches(r, term), (r: OfflineRecord) => Field(r, config.key), config.direction, page);
  }

  /**
   * The page count is taken over all records, not over the matching ones, so with a
   * narrowing search the Next button can lead to a page that shows no row: eleven
   * records of which one matches "airtel" make two pages, and the second is empty.
   */
  lemma NextCanReachEmptyPage()
    ensures var hit := OfflineRecord(1, "98765", "Airtel", "UP", 100, 7, 3);
            var miss := OfflineRecord(2, "98765", "Jio", "UP", 100, 7, 3);
            var records := [hit] + seq(10, i => miss);
            var config := SortConfig(RecordID, Ascending);
            && ClickNext(1, TotalPages(|records|)) == 2
            && Visible(records, "airtel", config, 1) == [hit]
            && Visible(records, "airtel", config, 2) == []
  {
    var hit := OfflineRecord(1, "98765", "Airtel", "UP", 100, 7, 3);
    var miss := OfflineRecord(2, "98765", "Jio", "UP", 100, 7, 3);
    var rest := seq(10, i => miss);
    var keep := (x: OfflineRecord) => Matches(x, "airtel");
    assert Lower("Airtel") == "airtel" == Lower("airtel");
    assert IsPrefix("airtel", "airtel");
    assert keep(hit);
    assert !keep(miss) by {
      ShorterNeverContains(Lower("Jio"), Lower("airtel"));
      ShorterNeverContains(Lower("98765"), Lower("airtel"));
      ShorterNeverContains(Lower("UP"), Lower("airtel"));
    }
    NoneKept(rest, keep);
    assert ([hit] + rest)[1..] == rest;
    assert Filter([hit] + rest, keep) == [hit];
    var key := (x: OfflineRecord) => Field(x, RecordID);
    assert SortBy([hit], key, Ascending) == [hit];
    assert PageOf([hit], 1) == [hit];
    assert PageOf([hit], 2) == [];
    assert |[hit] + rest| == 11;
  }

  lemma {:induction false} NoneKept(xs: seq<OfflineRecord>, keep: OfflineRecord -> bool)
    requires forall i :: 0 <= i < |xs| ==> !keep(xs[i])
    ensures Filter(xs, keep) == []
  {
    if xs != [] {
      NoneKept(xs[1..], keep);
    }
  }

  /** `ModalCustomerData`, the part of the editing record the Process Data modal reads. */
  datatype ModalCustomer = ModalCustomer(
    id: int, phone: string, company: string, circle: string, serviceNumber: int, rechargeUserId: int)

  /** The `customerForModal` memo: no customer without an editing record. */
  function CustomerForModal(editing: Option<OfflineRecord>): (c: Option<ModalCustomer>)
    ensures c.Some? <==> editing.Some?
    ensures c.Some? ==>
              && c.value.id == editing.value.recordId && c.value.phone == editing.value.number
              && c.value.company == editing.value.operatorName && c.value.circle == editing.value.circle
              && c.value.serviceNumber == editing.value.serviceNumber
              && c.value.rechargeUserId == editing.value.rechargeUserId
  {
    match editing
    case None => None
    case Some(r) => Some(ModalCustomer(r.recordId, r.number, r.operatorName, r.circle, r.serviceNumber, r.rechargeUserId))
  }

  /** The Update request's parameters; `customer?.id` is `undefined` without a customer. */
  datatype UpdatePayload = UpdatePayload(recordId: Option<int>, fibepeId: Option<int>, confNumber: string, opRefId: string)

  /** The Refund request's parameters. */
  datatype RefundPayload = RefundPayload(serviceNumber: int, fibepeId: int)

  /**
   * The modal's `handleRefund`: no request when the customer's service number or user id
   * is falsy, and 0 is falsy.
   */
  function RefundRequest(customer: Option<ModalCustomer>): (r: Option<RefundPayload>)
    ensures r.Some? <==> customer.Some? && customer.value.serviceNumber != 0 && customer.value.rechargeUserId != 0
    ensures r.Some? ==> r.value == RefundPayload(customer.value.serviceNumber, customer.value.rechargeUserId)
  {
    if customer.None? || customer.value.serviceNumber == 0 || customer.value.rechargeUserId == 0 then None
    else Some(RefundPayload(customer.value.serviceNumber, customer.value.rechargeUserId))
  }

  /**
   * A refund asked for from the modal names the editing record's service number and its
   * recharge user id (not the operator's own id), and every record with both set can be refunded.
   */
  lemma RefundNamesEditingRecord(editing: Option<OfflineRecord>)
    ensures var r := RefundRequest(CustomerForModal(editing));
            && (r.Some? <==> editing.Some? && editing.value.serviceNumber != 0 && editing.value.rechargeUserId != 0)
            && (r.Some? ==>
                  r.value.serviceNumber == editing.value.serviceNumber && r.value.fibepeId == editing.value.rechargeUserId)
  {
  }

  /** The Process Data form inside the modal: two required text inputs and the QR spinner. */
  class ProcessDataModal {
    var confNumber: string
    var opRefId: string
    var isQrLoading: bool

    constructor()
      ensures confNumber == "" && opRefId == "" && isQrLoading
    {
      confNumber, opRefId, isQrLoading := "", "", true;
    }

    /** The effect run when `isOpen` turns true: both inputs empty, the QR code loading again. */
    method OnOpen()
      modifies this
      ensures confNumber == "" && opRefId == "" && isQrLoading
    {
      confNumber, opRefId, isQrLoading := "", "", true;
    }

    method SetConfNumber(value: string)
      modifies this
      ensures confNumber == value && opRefId == old(opRefId) && isQrLoading == old(isQrLoading)
    {
      confNumber := value;
    }

    method SetOpRefId(value: string)
      modifies this
      ensures opRefId == value && confNumber == old(confNumber) && isQrLoading == old(isQrLoading)
    {
      opRefId := value;
    }

    /** The QR image finished loading (or failed to). */
    method QrLoaded()
      modifies this
      ensures !isQrLoading && confNumber == old(confNumber) && opRefId == old(opRefId)
    {
      isQrLoading := false;
    }

    /**
     * Submitting the form. Both inputs carry `required`, so the browser does not submit
     * while either is empty; otherwise the payload carries the two inputs as typed.
     */
    function Submit(customer: Option<ModalCustomer>): (r: Option<UpdatePayload>)
      reads this
      ensures r.Some? <==> confNumber != "" && opRefId != ""
      ensures r.Some? ==> r.value.confNumber == confNumber && r.value.opRefId == opRefId
      ensures r.Some? ==> (r.value.recordId.Some? <==> customer.Some?)
      ensures r.Some? && customer.Some? ==>
                r.value.recordId.value == customer.value.id && r.value.fibepeId == Some(customer.value.rechargeUserId)
    {
      if confNumber == "" || opRefId == "" then None
      else
        match customer
        case None => Some(UpdatePayload(None, None, confNumber, opRefId))
        case Some(c) => Some(UpdatePayload(Some(c.id), Some(c.rechargeUserId), confNumber, opRefId))
    }
  }

  /** What `localStorage.getItem("authUser")` held when the table mounted. */
  datatype StoredUser =
    | Absent
    | Unparsable
    /** Parsed JSON; `fibePeId` is its `FibePeID` field, missing or not. */
    | Parsed(fibePeId: Option<string>)

  const UserIdMissing := "User ID not found in session. Please log in again."
  const UserDataInvalid := "Invalid user data in session. Please log in again."

  function HttpError(status: nat): string {
    "HTTP error! Status: " + NatToString(status)
  }

  /** The message of the error the lock handler catches. */
  function LockFailureMessage(reply: Reply<()>): (m: string)
    ensures reply.Received? && reply.ok ==> m == OrElse(reply.body.message, "Failed to lock the record.")
    ensures reply.Received? && !reply.ok ==> m == HttpError(reply.status)
    ensures reply.Rejected? ==> m == reply.reason
  {
    match reply
    case Rejected(reason) => reason
    case Received(ok, status, _, body) => if ok then OrElse(body.message, "Failed to lock the record.") else HttpError(status)
  }

  /**
   * Save and refund read the JSON body whatever the status: the request succeeds when the
   * body says `IsSuccess`, and the failure message is the body's `Message`, the fallback,
   * or the error thrown by `fetch` or `json()`.
   */
  predicate ActionSucceeded<P>(reply: Reply<P>) {
    reply.Received? && reply.body.isSuccess
  }

  function ActionFailureMessage<P>(reply: Reply<P>, fallback: string): (m: string)
    ensures reply.Received? ==> m == OrElse(reply.body.message, fallback)
    ensures reply.Rejected? ==> m == reply.reason
  {
    match reply
    case Rejected(reason) => reason
    case Received(_, _, _, body) => OrElse(body.message, fallback)
  }

  /** The records after one poll: replaced on an answer, kept on an HTTP error or a throw. */
  function PolledRecords(records: seq<OfflineRecord>, reply: Reply<seq<OfflineRecord>>): seq<OfflineRecord> {
    match reply
    case Rejected(_) => records
    case Received(ok, _, _, body) =>
      if !ok then records
      else if body.isSuccess && body.payload.Some? then body.payload.value
      else []
  }

  /** The error after one poll: cleared first, set by an HTTP error or a throw. */
  function PolledError(reply: Reply<seq<OfflineRecord>>): Option<string> {
    match reply
    case Rejected(reason) => Some(reason)
    case Received(ok, status, _, _) => if ok then None else Some(HttpError(status))
  }

  /**
   * A poll either replaces the whole list with the server's answer, empties it, or, when
   * it reports an error, keeps the list that was there.
   */
  lemma PollSpec(records: seq<OfflineRecord>, reply: Reply<seq<OfflineRecord>>)
    ensures PolledError(reply).Some? <==> !(reply.Received? && reply.ok)
    ensures PolledError(reply).Some? ==> PolledRecords(records, reply) == records
    ensures PolledError(reply).None? && reply.body.isSuccess && reply.body.payload.Some? ==>
              PolledRecords(records, reply) == reply.body.payload.value
    ensures PolledError(reply).None? && !(reply.body.isSuccess && reply.body.payload.Some?) ==>
              PolledRecords(records, reply) == []
  {
  }

  class OfflineTable {
    var records: seq<OfflineRecord>
    var searchTerm: string
    var sortConfig: SortConfig<OfflineKey>
    var currentPage: int
    var isLoading: bool
    var error: Option<string>
    var isEditModalOpen: bool
    var editingRecord: Option<OfflineRecord>
    var isSuccessModalOpen: bool
    var successMessage: string
    var fibepeId: Option<string>
    var lockedRecords: set<int>
    var isFailureModalOpen: bool
    var failureMessage: string
    /** The mount effect started the five-second poll. */
    var isPolling: bool
    /** The record ids whose lock request has been sent and not yet answered. */
    ghost var pendingLocks: set<int>

    /**
     * The lock bookkeeping: the record being edited is locked and its lock request has
     * been answered, every record waiting for an answer is shown as locked, and the
     * edit modal is open exactly while a record is being edited.
     */
    ghost predicate Valid()
      reads this
    {
      && currentPage >= 1
      && (isEditModalOpen <==> editingRecord.Some?)
      && (editingRecord.Some? ==> editingRecord.value.recordId in lockedRecords - pendingLocks)
      && pendingLocks <= lockedRecords
    }

    /** The first render and the mount effect, which reads the signed-in user and starts polling. */
    constructor(stored: StoredUser)
      ensures Valid()
      ensures records == [] && searchTerm == "" && sortConfig == SortConfig(RecordID, Ascending) && currentPage == 1
      ensures !isEditModalOpen && editingRecord.None? && !isSuccessModalOpen && successMessage == ""
      ensures lockedRecords == {} && pendingLocks == {} && !isFailureModalOpen && failureMessage == ""
      ensures fibepeId == (if stored.Parsed? then stored.fibePeId else None)
      ensures isPolling <==> stored.Parsed? && Truthy(stored.fibePeId)
      ensures isPolling ==> isLoading && error.None?
      ensures !isPolling ==> !isLoading && error == Some(if stored.Unparsable? then UserDataInvalid else UserIdMissing)
    {
      records, searchTerm, sortConfig, currentPage := [], "", SortConfig(RecordID, Ascending), 1;
      isLoading, error := true, None;
      isEditModalOpen, editingRecord, isSuccessModalOpen, successMessage := false, None, false, "";
      fibepeId, lockedRecords, isFailureModalOpen, failureMessage := None, {}, false, "";
      isPolling := false;
      pendingLocks := {};
      new;
      match stored {
        case Absent =>
          error, isLoading := Some(UserIdMissing), false;
        case Unparsable =>
          error, isLoading := Some(UserDataInvalid), false;
        case Parsed(id) =>
          fibepeId := id;
          if Truthy(id) {
            isPolling := true;
          } else {
            error, isLoading := Some(UserIdMissing), false;
          }
      }
    }

    /** The rows on screen. */
    function Shown(): seq<OfflineRecord>
      reads this
    {
      Visible(records, searchTerm, sortConfig, currentPage)
    }

    /** `totalPages`, taken over all records. */
    function PageCount(): nat
      reads this
    {
      TotalPages(|records|)
    }

    /**
     * The start of a run of `fetchOfflineDTHData`: the error is cleared before the
     * request is sent, so while it is in flight the table shows the old records
     * even after a failed poll.
     */
    method BeginPoll()
      requires isPolling && Valid()
      modifies this
      ensures Valid()
      ensures error.None?
      ensures records == old(records) && isLoading == old(isLoading)
      ensures lockedRecords == old(lockedRecords) && pendingLocks == old(pendingLocks)
      ensures editingRecord == old(editingRecord) && isEditModalOpen == old(isEditModalOpen)
      ensures searchTerm == old(searchTerm) && sortConfig == old(sortConfig) && currentPage == old(currentPage)
      ensures isSuccessModalOpen == old(isSuccessModalOpen) && successMessage == old(successMessage)
      ensures isFailureModalOpen == old(isFailureModalOpen) && failureMessage == old(failureMessage)
      ensures fibepeId == old(fibepeId) && isPolling
    {
      error := None;
    }

    /**
     * The rest of a run of `fetchOfflineDTHData`, from the answer to the `finally`
     * block. Polls overlap on the interval, so the answer may arrive in any state;
     * an answer that is not an error leaves whatever error another poll has set.
     */
    method CompletePoll(reply: Reply<seq<OfflineRecord>>)
      requires isPolling && Valid()
      modifies this
      ensures Valid()
      ensures records == PolledRecords(old(records), reply) && !isLoading
      ensures error == (if PolledError(reply).Some? then PolledError(reply) else old(error))
      ensures lockedRecords == old(lockedRecords) && pendingLocks == old(pendingLocks)
      ensures editingRecord == old(editingRecord) && isEditModalOpen == old(isEditModalOpen)
      ensures searchTerm == old(searchTerm) && sortConfig == old(sortConfig) && currentPage == old(currentPage)
      ensures isSuccessModalOpen == old(isSuccessModalOpen) && successMessage == old(successMessage)
      ensures isFailureModalOpen == old(isFailureModalOpen) && failureMessage == old(failureMessage)
      ensures fibepeId == old(fibepeId) && isPolling
    {
      match reply {
        case Rejected(reason) =>
          error := Some(reason);
        case Received(ok, status, _, body) =>
          if !ok {
            error := Some(HttpError(status));
          } else if body.isSuccess && body.payload.Some? {
            records := body.payload.value;
          } else {
            records := [];
          }
      }
      isLoading := false;
    }

    /** Typing in the search box goes back to page 1. */
    method SetSearchTerm(term: string)
      requires Valid()
      modifies this
      ensures Valid()
      ensures searchTerm == term && currentPage == 1
      ensures records == old(records) && sortConfig == old(sortConfig) && isLoading == old(isLoading) && error == old(error)
      ensures lockedRecords == old(lockedRecords) && pendingLocks == old(pendingLocks)
      ensures editingRecord == old(editingRecord) && isEditModalOpen == old(isEditModalOpen)
      ensures isSuccessModalOpen == old(isSuccessModalOpen) && successMessage == old(successMessage)
      ensures isFailureModalOpen == old(isFailureModalOpen) && failureMessage == old(failureMessage)
      ensures fibepeId == old(fibepeId) && isPolling == old(isPolling)
    {
      searchTerm, currentPage := term, 1;
    }

    /** `handleSort`: a header click toggles or starts an ascending sort and goes back to page 1. */
    method HandleSort(key: OfflineKey)
      requires Valid()
      modifies this
      ensures Valid()
      ensures sortConfig == ToggleSort(old(sortConfig), key) && currentPage == 1
      ensures records == old(records) && searchTerm == old(searchTerm) && isLoading == old(isLoading) && error == old(error)
      ensures lockedRecords == old(lockedRecords) && pendingLocks == old(pendingLocks)
      ensures editingRecord == old(editingRecord) && isEditModalOpen == old(isEditModalOpen)
      ensures isSuccessModalOpen == old(isSuccessModalOpen) && successMessage == old(successMessage)
      ensures isFailureModalOpen == old(isFailureModalOpen) && failureMessage == old(failureMessage)
      ensures fibepeId == old(fibepeId) && isPolling == old(isPolling)
    {
      sortConfig, currentPage := ToggleSort(sortConfig, key), 1;
    }

    method PreviousPage()
      requires Valid()
      modifies this
      ensures Valid()
      ensures currentPage == ClickPrevious(old(currentPage))
      ensures records == old(records) && searchTerm == old(searchTerm) && sortConfig == old(sortConfig)
      ensures isLoading == old(isLoading) && error == old(error)
      ensures lockedRecords == old(lockedRecords) && pendingLocks == old(pendingLocks)
      ensures editingRecord == old(editingRecord) && isEditModalOpen == old(isEditModalOpen)
      ensures isSuccessModalOpen == old(isSuccessModalOpen) && successMessage == old(successMessage)
      ensures isFailureModalOpen == old(isFailureModalOpen) && failureMessage == old(failureMessage)
      ensures fibepeId == old(fibepeId) && isPolling == old(isPolling)
    {
      currentPage := ClickPrevious(currentPage);
    }

    method NextPage()
      requires Valid()
      modifies this
      ensures Valid()
      ensures currentPage == ClickNext(old(currentPage), old(PageCount()))
      ensures records == old(records) && searchTerm == old(searchTerm) && sortConfig == old(sortConfig)
      ensures isLoading == old(isLoading) && error == old(error)
      ensures lockedRecords == old(lockedRecords) && pendingLocks == old(pendingLocks)
      ensures editingRecord == old(editingRecord) && isEditModalOpen == old(isEditModalOpen)
      ensures isSuccessModalOpen == old(isSuccessModalOpen) && successMessage == old(successMessage)
      ensures isFailureModalOpen == old(isFailureModalOpen) && failureMessage == old(failureMessage)
      ensures fibepeId == old(fibepeId) && isPolling == old(isPolling)
    {
      currentPage := ClickNext(currentPage, PageCount());
    }

    /**
     * "Proceed", up to the `await` of the lock request: nothing happens when the record is
     * already locked or no operator id is known; otherwise the record is locked at once
     * and the request goes out (`sent`).
     */
    method BeginLock(record: OfflineRecord) returns (sent: bool)
      requires Valid()
      modifies this
      ensures Valid()
      ensures sent <==> old(record.recordId !in lockedRecords && Truthy(fibepeId))
      ensures lockedRecords == if sent then old(lockedRecords) + {record.recordId} else old(lockedRecords)
      ensures pendingLocks == if sent then old(pendingLocks) + {record.recordId} else old(pendingLocks)
      ensures records == old(records) && searchTerm == old(searchTerm) && sortConfig == old(sortConfig)
      ensures currentPage == old(currentPage) && isLoading == old(isLoading) && error == old(error)
      ensures editingRecord == old(editingRecord) && isEditModalOpen == old(isEditModalOpen)
      ensures isSuccessModalOpen == old(isSuccessModalOpen) && successMessage == old(successMessage)
      ensures isFailureModalOpen == old(isFailureModalOpen) && failureMessage == old(failureMessage)
      ensures fibepeId == old(fibepeId) && isPolling == old(isPolling)
    {
      if record.recordId in lockedRecords || !Truthy(fibepeId) {
        return false;
      }
      lockedRecords := lockedRecords + {record.recordId};
      pendingLocks := pendingLocks + {record.recordId};
      return true;
    }

    /**
     * The answer to a lock request: a lock granted opens the edit session on the record,
     * which stays locked; anything else unlocks it and shows the failure modal.
     */
    method CompleteLock(record: OfflineRecord, reply: Reply<()>)
      requires Valid() && record.recordId in pendingLocks
      modifies this
      ensures Valid()
      ensures pendingLocks == old(pendingLocks) - {record.recordId}
      ensures reply.Received? && reply.ok && reply.body.isSuccess ==>
                && editingRecord == Some(record) && isEditModalOpen
                && lockedRecords == old(lockedRecords)
                && isFailureModalOpen == old(isFailureModalOpen) && failureMessage == old(failureMessage)
      ensures !(reply.Received? && reply.ok && reply.body.isSuccess) ==>
                && editingRecord == old(editingRecord) && isEditModalOpen == old(isEditModalOpen)
                && lockedRecords == old(lockedRecords) - {record.recordId}
                && isFailureModalOpen && failureMessage == LockFailureMessage(reply)
      ensures records == old(records) && searchTerm == old(searchTerm) && sortConfig == old(sortConfig)
      ensures currentPage == old(currentPage) && isLoading == old(isLoading) && error == old(error)
      ensures isSuccessModalOpen == old(isSuccessModalOpen) && successMessage == old(successMessage)
      ensures fibepeId == old(fibepeId) && isPolling == old(isPolling)
    {
      pendingLocks := pendingLocks - {record.recordId};
      if reply.Received? && reply.ok && reply.body.isSuccess {
        editingRecord := Some(record);
        isEditModalOpen := true;
      } else {
        failureMessage := LockFailureMessage(reply);
        isFailureModalOpen := true;
        lockedRecords := lockedRecords - {record.recordId};
      }
    }

    /**
     * `toggleEditModal`: closing an edit session unlocks exactly the record being edited
     * (locally; no unlock request is sent), and the modal flips either way.
     */
    method ToggleEditModal()
      requires Valid()
      modifies this
      ensures old(isEditModalOpen) ==> Valid()
      ensures isEditModalOpen == !old(isEditModalOpen)
      ensures old(isEditModalOpen) && old(editingRecord).Some? ==>
                lockedRecords == old(lockedRecords) - {old(editingRecord).value.recordId}
      ensures !(old(isEditModalOpen) && old(editingRecord).Some?) ==> lockedRecords == old(lockedRecords)
      ensures editingRecord == if old(isEditModalOpen) then None else old(editingRecord)
      ensures pendingLocks == old(pendingLocks)
      ensures records == old(records) && searchTerm == old(searchTerm) && sortConfig == old(sortConfig)
      ensures currentPage == old(currentPage) && isLoading == old(isLoading) && error == old(error)
      ensures isSuccessModalOpen == old(isSuccessModalOpen) && successMessage == old(successMessage)
      ensures isFailureModalOpen == old(isFailureModalOpen) && failureMessage == old(failureMessage)
      ensures fibepeId == old(fibepeId) && isPolling == old(isPolling)
    {
      if isEditModalOpen && editingRecord.Some? {
        lockedRecords := lockedRecords - {editingRecord.value.recordId};
        editingRecord := None;
      }
      isEditModalOpen := !isEditModalOpen;
    }

    /**
     * The shared tail of `handleSave` and `handleRefund`: success shows `successText` and
     * ends the edit session, failure shows the reason and leaves the session open.
     */
    method FinishAction<P>(reply: Reply<P>, successText: string, fallback: string)
      requires Valid() && isEditModalOpen
      modifies this
      ensures Valid()
      ensures ActionSucceeded(reply) ==>
                && isSuccessModalOpen && successMessage == successText
                && !isEditModalOpen && editingRecord.None?
                && lockedRecords == old(lockedRecords) - {old(editingRecord).value.recordId}
                && isFailureModalOpen == old(isFailureModalOpen) && failureMessage == old(failureMessage)
      ensures !ActionSucceeded(reply) ==>
                && isFailureModalOpen && failureMessage == ActionFailureMessage(reply, fallback)
                && isEditModalOpen && editingRecord == old(editingRecord) && lockedRecords == old(lockedRecords)
                && isSuccessModalOpen == old(isSuccessModalOpen) && successMessage == old(successMessage)
      ensures pendingLocks == old(pendingLocks)
      ensures records == old(records) && searchTerm == old(searchTerm) && sortConfig == old(sortConfig)
      ensures currentPage == old(currentPage) && isLoading == old(isLoading) && error == old(error)
      ensures fibepeId == old(fibepeId) && isPolling == old(isPolling)
    {
      if ActionSucceeded(reply) {
        successMessage := successText;
        isSuccessModalOpen := true;
        ToggleEditModal();
      } else {
        failureMessage := ActionFailureMessage(reply, fallback);
        isFailureModalOpen := true;
      }
    }

    /** `handleSave`, once the Update request has been answered. */
    method HandleSave(reply: Reply<()>)
      requires Valid() && isEditModalOpen
      modifies this
      ensures Valid()
      ensures ActionSucceeded(reply) ==>
                && isSuccessModalOpen && successMessage == "Record updated successfully!"
                && !isEditModalOpen && editingRecord.None?
                && lockedRecords == old(lockedRecords) - {old(editingRecord).value.recordId}
                && isFailureModalOpen == old(isFailureModalOpen) && failureMessage == old(failureMessage)
      ensures !ActionSucceeded(reply) ==>
                && isFailureModalOpen && failureMessage == ActionFailureMessage(reply, "Failed to update record.")
                && isEditModalOpen && editingRecord == old(editingRecord) && lockedRecords == old(lockedRecords)
                && isSuccessModalOpen == old(isSuccessModalOpen) && successMessage == old(successMessage)
      ensures pendingLocks == old(pendingLocks)
      ensures records == old(records) && searchTerm == old(searchTerm) && sortConfig == old(sortConfig)
      ensures currentPage == old(currentPage) && isLoading == old(isLoading) && error == old(error)
      ensures fibepeId == old(fibepeId) && isPolling == old(isPolling)
    {
      FinishAction(reply, "Record updated successfully!", "Failed to update record.");
    }

    /** `handleRefund`, once the Refund request has been answered. */
    method HandleRefund(reply: Reply<()>)
      requires Valid() && isEditModalOpen
      modifies this
      ensures Valid()
      ensures ActionSucceeded(reply) ==>
                && isSuccessModalOpen && successMessage == "Refund processed successfully!"
                && !isEditModalOpen && editingRecord.None?
                && lockedRecords == old(lockedRecords) - {old(editingRecord).value.recordId}
                && isFailureModalOpen == old(isFailureModalOpen) && failureMessage == old(failureMessage)
      ensures !ActionSucceeded(reply) ==>
                && isFailureModalOpen && failureMessage == ActionFailureMessage(reply, "Failed to process refund.")
                && isEditModalOpen && editingRecord == old(editingRecord) && lockedRecords == old(lockedRecords)
                && isSuccessModalOpen == old(isSuccessModalOpen) && successMessage == old(successMessage)
      ensures pendingLocks == old(pendingLocks)
      ensures records == old(records) && searchTerm == old(searchTerm) && sortConfig == old(sortConfig)
      ensures currentPage == old(currentPage) && isLoading == old(isLoading) && error == old(error)
      ensures fibepeId == old(fibepeId) && isPolling == old(isPolling)
    {
      FinishAction(reply, "Refund processed successfully!", "Failed to process refund.");
    }

    /** The success modal's `toggle`, which only ever closes it. */
    method CloseSuccessModal()
      requires Valid()
      modifies this
      ensures Valid()
      ensures !isSuccessModalOpen && successMessage == old(successMessage)
      ensures isFailureModalOpen == old(isFailureModalOpen) && failureMessage == old(failureMessage)
      ensures editingRecord == old(editingRecord) && isEditModalOpen == old(isEditModalOpen)
      ensures lockedRecords == old(lockedRecords) && pendingLocks == old(pendingLocks)
      ensures records == old(records) && searchTerm == old(searchTerm) && sortConfig == old(sortConfig)
      ensures currentPage == old(currentPage) && isLoading == old(isLoading) && error == old(error)
      ensures fibepeId == old(fibepeId) && isPolling == old(isPolling)
    {
      isSuccessModalOpen := false;
    }

    /** The failure modal's `toggle`, which only ever closes it. */
    method CloseFailureModal()
      requires Valid()
      modifies this
      ensures Valid()
      ensures !isFailureModalOpen && failureMessage == old(failureMessage)
      ensures isSuccessModalOpen == old(isSuccessModalOpen) && successMessage == old(successMessage)
      ensures editingRecord == old(editingRecord) && isEditModalOpen == old(isEditModalOpen)
      ensures lockedRecords == old(lockedRecords) && pendingLocks == old(pendingLocks)
      ensures records == old(records) && searchTerm == old(searchTerm) && sortConfig == old(sortConfig)
      ensures currentPage == old(currentPage) && isLoading == old(isLoading) && error == old(error)
      ensures fibepeId == old(fibepeId) && isPolling == old(isPolling)
    {
      isFailureModalOpen := false;
    }
  }

  /**
   * A poll that no other poll overlaps: the error on screen afterwards is exactly the
   * one this poll's answer gives, whatever error an earlier poll left.
   */
  method PollAlone(t: OfflineTable, reply: Reply<seq<OfflineRecord>>)
    requires t.isPolling && t.Valid()
    modifies t
    ensures t.Valid() && t.isPolling && !t.isLoading
    ensures t.records == PolledRecords(old(t.records), reply) && t.error == PolledError(reply)
    ensures t.lockedRecords == old(t.lockedRecords) && t.editingRecord == old(t.editingRecord)
  {
    t.BeginPoll();
    t.CompletePoll(reply);
  }

  /**
   * A whole edit session: from a free record, Proceed, a granted lock and a successful
   * save leave the record unlocked again and the lock set as it was.
   */
  method LockThenSave(t: OfflineTable, record: OfflineRecord, lockReply: Reply<()>, saveReply: Reply<()>)
    requires t.Valid() && !t.isEditModalOpen && Truthy(t.fibepeId) && record.recordId !in t.lockedRecords
    requires lockReply.Received? && lockReply.ok && lockReply.body.isSuccess
    requires ActionSucceeded(saveReply)
    modifies t
    ensures t.Valid() && !t.isEditModalOpen && t.editingRecord.None?
    ensures t.lockedRecords == old(t.lockedRecords) && t.records == old(t.records)
    ensures t.isSuccessModalOpen && t.successMessage == "Record updated successfully!"
  {
    var sent := t.BeginLock(record);
    t.CompleteLock(record, lockReply);
    t.HandleSave(saveReply);
  }
}
