/**
 * The device report's view model (DeviceReportViewModel.kt): the chosen
 * date range, the charge total over it, the list of unsynced rows, and the
 * manual sync with its guard against running twice.
 */
module DeviceReport {
  import opened Wrappers
  import opened Ledger
  import opened Repository

  /** What the report's snackbar shows: the repository's summary, or the error that stopped the sync. */
  datatype ReportMessage = SyncFinished(summary: SyncSummary) | SyncError(message: string)

  /** `DeviceReportUiState`; the dates are the millisecond times of the chosen days. */
  datatype DeviceReportUiState = DeviceReportUiState(
    startDate: int,
    endDate: int,
    totalCharge: int,
    totalGift: int,
    totalPriceBack: int,
    unsyncedTransactions: seq<Transaction>,
    isUnsyncedDialogVisible: bool,
    isSyncing: bool,
    snackbarMessage: Option<ReportMessage>)

  /** The report's initial state; both dates default to the current time `now`. */
  function InitialReportState(now: int): (s: DeviceReportUiState)
    ensures s.startDate == now && s.endDate == now
    ensures s.totalCharge == 0 && s.unsyncedTransactions == []
    ensures !s.isUnsyncedDialogVisible && !s.isSyncing && s.snackbarMessage == None
  {
    DeviceReportUiState(now, now, 0, 0, 0, [], false, false, None)
  }

  /** `updateSummaries`' reading of the SQL total: null becomes 0. */
  function ChargeShown(rows: seq<Transaction>, start: int, end: int): (c: int)
    ensures (forall i :: 0 <= i < |rows| ==> !IsChargeIn(rows[i], start, end)) ==> c == 0
    ensures TotalCharge(rows, start, end).Some? ==> c == TotalCharge(rows, start, end).value
    ensures c == PriceSum(ChargesIn(rows, start, end))
  {
    TotalChargeIsPriceSum(rows, start, end);
    TotalCharge(rows, start, end).GetOr(0)
  }

  /** A new top-up row registered inside the range raises the total shown by its price. */
  lemma NewChargeRaisesTotal(rows: seq<Transaction>, t: Transaction, start: int, end: int)
    requires IsChargeIn(t, start, end)
    ensures ChargeShown(rows + [t], start, end) == ChargeShown(rows, start, end) + t.price
  {
    TotalChargeAppend(rows, t, start, end);
  }

  /**
   * When every unsynced row is answered with a success, the sync marks all
   * of them: nothing is left unsynced.
   */
  lemma AllSentClearsBacklog(rows: seq<Transaction>, nextId: int, rs: seq<SqlResponse>)
    requires LedgerInvariant(rows, nextId)
    requires |rs| == |Unsynced(rows)|
    requires forall j :: 0 <= j < |rs| ==> rs[j].Success?
    ensures UnsyncedCount(MarkAll(rows, Marked(Unsynced(rows), rs))) == 0
  {
    var unsent := Unsynced(rows);
    var after := MarkAll(rows, Marked(unsent, rs));
    assert FirstDisconnect(rs) == |rs|;
    forall i | 0 <= i < |rows| ensures after[i].hasSet {
      MarkAllAt(rows, Marked(unsent, rs), i);
      if !rows[i].hasSet {
        assert rows[i] in rows;
        assert rows[i] in unsent;
        var j :| 0 <= j < |unsent| && unsent[j] == rows[i];
        MarkedIff(unsent, rs, |rs|, rows[i].id);
      }
    }
  }

  class DeviceReportViewModel {
    var uiState: DeviceReportUiState
    const repository: SqlServerRepository

    ghost predicate Valid()
      reads this, repository.ledger, repository.credits, repository.users
    {
      repository.Valid()
    }

    constructor (repository: SqlServerRepository, now: int)
      ensures this.repository == repository && uiState == InitialReportState(now)
    {
      this.repository := repository;
      uiState := InitialReportState(now);
    }

    /** `onDateRangeChanged`: only the two dates change. */
    method OnDateRangeChanged(start: int, end: int)
      modifies this
      ensures uiState == old(uiState).(startDate := start, endDate := end)
    {
      uiState := uiState.(startDate := start, endDate := end);
    }

    /** `updateSummaries`: the charge total over [start, end], 0 when there is none. */
    method UpdateSummaries(start: int, end: int)
      requires Valid()
      modifies this
      ensures uiState == old(uiState).(totalCharge := ChargeShown(repository.ledger.rows, start, end))
    {
      var charge := TotalCharge(repository.ledger.rows, start, end).GetOr(0);
      uiState := uiState.(totalCharge := charge);
    }

    /** `showUnsyncedTransactions`: the unsynced rows, and the dialog that lists them. */
    method ShowUnsyncedTransactions()
      requires Valid()
      modifies this
      ensures uiState == old(uiState).(unsyncedTransactions := Unsynced(repository.ledger.rows), isUnsyncedDialogVisible := true)
    {
      var transactions := Unsynced(repository.ledger.rows);
      uiState := uiState.(unsyncedTransactions := transactions, isUnsyncedDialogVisible := true);
    }

    /** `dismissUnsyncedTransactionsDialog`: only the visibility flag changes. */
    method DismissUnsyncedTransactionsDialog()
      modifies this
      ensures uiState == old(uiState).(isUnsyncedDialogVisible := false)
    {
      uiState := uiState.(isUnsyncedDialogVisible := false);
    }

    /** `clearAllLocalTransactions`: empties the ledger, then recomputes the total, which is now 0. */
    method ClearAllLocalTransactions()
      requires Valid()
      modifies this, repository.ledger
      ensures Valid()
      ensures repository.ledger.rows == [] && UnsyncedCount(repository.ledger.rows) == 0
      ensures uiState == old(uiState).(totalCharge := 0)
    {
      repository.ledger.ClearAllTransactions();
      UpdateSummaries(uiState.startDate, uiState.endDate);
    }

    /**
     * `postUnsentTransactions`: ignored while a sync runs. Otherwise the
     * unsynced rows are posted, `responses[i]` answering the i-th of them,
     * and the summary is shown. `failure` is the text of an error raised
     * while reading the unsynced rows, before anything was posted.
     */
    method PostUnsentTransactions(responses: seq<SqlResponse>, failure: Option<string>)
      requires Valid()
      requires |responses| == |Unsynced(repository.ledger.rows)|
      modifies this, repository.ledger
      ensures Valid()
      ensures old(uiState.isSyncing) ==>
        uiState == old(uiState) && repository.ledger.rows == old(repository.ledger.rows)
      ensures !old(uiState.isSyncing) && failure.Some? ==>
        && uiState == old(uiState).(isSyncing := false, snackbarMessage := Some(SyncError(failure.value)))
        && repository.ledger.rows == old(repository.ledger.rows)
      ensures !old(uiState.isSyncing) && failure.None? ==>
        var unsent := Unsynced(old(repository.ledger.rows));
        && uiState == old(uiState).(isSyncing := false, snackbarMessage := Some(SyncFinished(Summary(unsent, responses))))
        && repository.ledger.rows == MarkAll(old(repository.ledger.rows), Marked(unsent, responses))
    {
      if uiState.isSyncing {
        return;
      }
      uiState := uiState.(isSyncing := true, snackbarMessage := None);
      if failure.Some? {
        uiState := uiState.(isSyncing := false, snackbarMessage := Some(SyncError(failure.value)));
        return;
      }
      var unsent := Unsynced(repository.ledger.rows);
      var summary := repository.PostUnsentTransactions(unsent, responses);
      uiState := uiState.(isSyncing := false, snackbarMessage := Some(SyncFinished(summary)));
    }

    /** `onSnackbarShown` */
    method OnSnackbarShown()
      modifies this
      ensures uiState == old(uiState).(snackbarMessage := None)
    {
      uiState := uiState.(snackbarMessage := None);
    }
  }
}
