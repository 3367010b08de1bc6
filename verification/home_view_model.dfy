/**
 * The home screen's view model (HomeScreenViewModel.kt): the card top-up
 * workflow, the ledger save behind it, the card reads, and the small UI
 * events. The card codec and the NFC hardware are outside the model: each
 * card read arrives as its parsed `FullCardData`, each card write as the
 * status code it returned.
 */
module HomeViewModel {
  import opened Wrappers
  import opened Text
  import opened Tables
  import opened Collections
  import opened Ledger
  import opened Credits
  import opened CardData
  import opened Repository

  datatype DialogState =
    | Hidden
    | ShowPasswordPrompt
    | ShowTransactions
    | ShowWaitingForCard
    | ShowGetTransactionSource
    | ShowResult(isSuccess: bool)
    | ShowConfirmTopUp(amount: int)

  /** The snackbar texts the view model sets; what they quote is kept, the wording is not. */
  datatype Notice =
    | EnterValidAmount
    | AmountAboveLimit
    | CardInfoUnreadable
    | WrongOrganization
    | WrongOrganizationRetry
    | InitialCreditUnreadable(message: string)
    | CardCredit(credit: int)
    | CreditUnreadable(message: string)
    | CardHistoryEmpty
    | CardHistoryUnreadable(message: string)
    | FloatInsufficient
    | OperationInProgress

  datatype HomeScreenUiState = HomeScreenUiState(
    currentCredit: int,
    transactionList: seq<TransactionRecord>,
    selectedTopUpAmount: Option<int>,
    customAmount: string,
    dialogState: DialogState,
    isCardOperationInProgress: bool,
    snackbarMessage: Option<Notice>)

  /** `HomeScreenUiState()` with every default. */
  function InitialUiState(): (s: HomeScreenUiState)
    ensures s.currentCredit == 0 && s.transactionList == [] && s.selectedTopUpAmount == None
    ensures s.customAmount == "" && s.dialogState == Hidden
    ensures !s.isCardOperationInProgress && s.snackbarMessage == None
  {
    HomeScreenUiState(0, [], None, "", Hidden, false, None)
  }

  /** Why a save failed: the server's `Failure` message, or the fixed "could not send" text. */
  datatype SaveError = ServerMessage(message: string) | SendFailed

  /** The part of the shared server state the home screen writes. */
  datatype SaveState = SaveState(
    isSavingTransaction: bool,
    transactionSaved: bool,
    transactionError: Option<SaveError>,
    snackbarMessage: Option<Notice>)

  /** The events that only copy the UI state. */
  datatype UiEvent =
    | CustomAmountConfirmed
    | CustomAmountEntered(input: string)
    | PredefinedAmountSelected(amount: int)
    | ShowGetHistoryDialog
    | RequestSettingsAccess
    | DismissDialog
    | SnackbarShown

  /** The largest custom amount, 2,000,000. */
  const CustomAmountLimit: int := 2_000_000

  /** `handleCustomAmountInput`'s test on the digits kept: empty, or at most the limit (null reads as 0). */
  predicate AcceptsCustomAmount(digits: string) {
    digits == [] || ToLongOrNull(digits).GetOr(0) <= CustomAmountLimit
  }

  /** The UI state after one of the copying events. */
  function ApplyUiEvent(s: HomeScreenUiState, e: UiEvent): (r: HomeScreenUiState)
    ensures r.currentCredit == s.currentCredit && r.transactionList == s.transactionList
    ensures r.selectedTopUpAmount == s.selectedTopUpAmount
    ensures r.isCardOperationInProgress == s.isCardOperationInProgress
  {
    match e
    case CustomAmountConfirmed =>
      var amount := ToIntOrNull(s.customAmount);
      if amount.Some? && amount.value > 0 then
        s.(dialogState := ShowConfirmTopUp(amount.value), customAmount := "")
      else
        s.(snackbarMessage := Some(EnterValidAmount))
    case CustomAmountEntered(input) =>
      var digits := DigitsOnly(input);
      if AcceptsCustomAmount(digits) then s.(customAmount := digits)
      else s.(snackbarMessage := Some(AmountAboveLimit))
    case PredefinedAmountSelected(amount) => s.(dialogState := ShowConfirmTopUp(amount))
    case ShowGetHistoryDialog => s.(dialogState := ShowGetTransactionSource)
    case RequestSettingsAccess => s.(dialogState := ShowPasswordPrompt)
    case DismissDialog => s.(dialogState := Hidden)
    case SnackbarShown => s.(snackbarMessage := None)
  }

  /** Confirming opens the confirmation dialog and clears the input iff the input is a positive Int. */
  lemma ConfirmCustomAmount(s: HomeScreenUiState)
    ensures ApplyUiEvent(s, CustomAmountConfirmed).dialogState.ShowConfirmTopUp? <==>
            (s.dialogState.ShowConfirmTopUp? ||
             (ToIntOrNull(s.customAmount).Some? && ToIntOrNull(s.customAmount).value > 0))
    ensures ToIntOrNull(s.customAmount).Some? && ToIntOrNull(s.customAmount).value > 0 ==>
            ApplyUiEvent(s, CustomAmountConfirmed) ==
            s.(dialogState := ShowConfirmTopUp(ToIntOrNull(s.customAmount).value), customAmount := "")
    ensures !(ToIntOrNull(s.customAmount).Some? && ToIntOrNull(s.customAmount).value > 0) ==>
            ApplyUiEvent(s, CustomAmountConfirmed) == s.(snackbarMessage := Some(EnterValidAmount))
  {
  }

  /** Typing keeps only the digits, and keeps them iff they pass the limit test; otherwise only the message changes. */
  lemma EnterCustomAmount(s: HomeScreenUiState, input: string)
    ensures var r := ApplyUiEvent(s, CustomAmountEntered(input));
      && (AcceptsCustomAmount(DigitsOnly(input)) ==> r == s.(customAmount := DigitsOnly(input)))
      && (!AcceptsCustomAmount(DigitsOnly(input)) ==> r == s.(snackbarMessage := Some(AmountAboveLimit)))
      && forall i :: 0 <= i < |r.customAmount| && r.customAmount != s.customAmount ==> IsDigit(r.customAmount[i])
  {
  }

  /** A typed amount the limit test keeps is either empty or, read as a number, at most 2,000,000. */
  lemma AcceptedAmountWithinLimit(input: string, v: int)
    requires AcceptsCustomAmount(DigitsOnly(input))
    requires ToLongOrNull(DigitsOnly(input)) == Some(v)
    ensures v <= CustomAmountLimit
  {
  }

  /** Every decimal number up to the limit passes, and every number above it is refused. */
  lemma CustomAmountLimitExact(n: nat)
    ensures AcceptsCustomAmount(NatDigits(n)) <==> n <= CustomAmountLimit || n > LongMax
  {
    ParseDecimalString(n, LongMin, LongMax);
    assert DecimalString(n) == NatDigits(n);
  }

  /** What a top-up request leads to, decided from the card read, the device float and the write status. */
  datatype TopUpOutcome =
    | CardUnreadable
    | OrganizationMismatch
    | CreditReadFailed(message: string)
    | InsufficientFloat
    | WriteFailed(code: int)
    | Charged(cardId: int, uc: int, preCredit: int, newCredit: int)

  /** The guards of `handleCardTopUp` in order, then the card write. */
  function PlanTopUp(card: FullCardData, uc: int, balance: int, payment: int, writeResult: int): (o: TopUpOutcome)
    ensures o.Charged? <==>
      && card.sector0.Sector0Success? && card.sector0.uc == uc
      && card.sector5.Sector5Success?
      && balance >= payment
      && writeResult == 0
    ensures o.Charged? ==>
      && o.cardId == card.sector0.cardId && o.uc == uc
      && o.preCredit == card.sector5.credit && o.newCredit == o.preCredit + payment
    ensures o == InsufficientFloat ==> balance < payment
    ensures o.WriteFailed? ==> o.code == writeResult && writeResult != 0 && balance >= payment
  {
    if !card.sector0.Sector0Success? then CardUnreadable
    else if card.sector0.uc != uc then OrganizationMismatch
    else if !card.sector5.Sector5Success? then CreditReadFailed(card.sector5.message)
    else if balance < payment then InsufficientFloat
    else if writeResult != 0 then WriteFailed(writeResult)
    else Charged(card.sector0.cardId, card.sector0.uc, card.sector5.credit, card.sector5.credit + payment)
  }

  /** The UI state a top-up leaves behind, after its `finally` step. */
  function TopUpUiState(s: HomeScreenUiState, o: TopUpOutcome): (r: HomeScreenUiState)
    ensures !r.isCardOperationInProgress
    ensures r.dialogState != ShowWaitingForCard
    ensures r.dialogState == ShowResult(true) <==> o.Charged?
    ensures r.transactionList == s.transactionList && r.customAmount == s.customAmount
    ensures r.currentCredit == if o.Charged? then o.newCredit else s.currentCredit
  {
    match o
    case CardUnreadable =>
      s.(dialogState := Hidden, snackbarMessage := Some(CardInfoUnreadable), isCardOperationInProgress := false)
    case OrganizationMismatch =>
      s.(dialogState := Hidden, snackbarMessage := Some(WrongOrganization), isCardOperationInProgress := false)
    case CreditReadFailed(m) =>
      s.(dialogState := Hidden, snackbarMessage := Some(InitialCreditUnreadable(m)), isCardOperationInProgress := false)
    case InsufficientFloat =>
      s.(dialogState := ShowResult(false), snackbarMessage := Some(FloatInsufficient), isCardOperationInProgress := false)
    case WriteFailed(_) =>
      s.(dialogState := ShowResult(false), isCardOperationInProgress := false)
    case Charged(_, _, _, newCredit) =>
      s.(currentCredit := newCredit, dialogState := ShowResult(true), isCardOperationInProgress := false)
  }

  /** The ledger row a successful top-up saves: a charge of `payment` from `preCredit` to `newCredit`. */
  function TopUpRow(o: TopUpOutcome, deviceId: int, operatorId: int, payment: int, now: int): (t: Transaction)
    requires o.Charged?
    ensures t.id == 0 && !t.hasSet && t.operationId == 0
    ensures t.operationType == OperationIncrease && t.price == payment
    ensures t.preCredit == o.preCredit && t.finalCredit == o.preCredit + payment
    ensures t.cardId == o.cardId && t.uc == o.uc && t.deviceId == deviceId && t.operatorId == operatorId
    ensures t.regDate == now
  {
    NewTransaction(o.cardId, o.uc, deviceId, OperationIncrease, o.preCredit, payment, o.preCredit + payment, now, operatorId)
  }

  /** A charge only happens when the float covers the payment, so the stored float never goes negative. */
  lemma ChargeKeepsFloatNonNegative(card: FullCardData, uc: int, balance: int, payment: int, writeResult: int)
    requires PlanTopUp(card, uc, balance, payment, writeResult).Charged?
    ensures balance - payment >= 0
  {
  }

  /** Once the guards pass, the write status alone decides between a charge and a failure. */
  lemma WriteStatusDecides(card: FullCardData, uc: int, balance: int, payment: int, w1: int, w2: int)
    requires w1 == 0 && w2 != 0
    requires card.sector0.Sector0Success? && card.sector0.uc == uc && card.sector5.Sector5Success?
    requires balance >= payment
    ensures PlanTopUp(card, uc, balance, payment, w1).Charged?
    ensures PlanTopUp(card, uc, balance, payment, w2) == WriteFailed(w2)
  {
  }

  /**
   * A worked top-up: a card of organisation 7 with credit 50,000 and a
   * device float of 100,000 take a payment of 20,000.
   */
  lemma TopUpExample(s0: Sector0Result, s5: Sector5Result, s6: Sector6Result, deviceId: int, operatorId: int, now: int)
    requires s0 == Sector0Success(7, 42)
    requires s5.Sector5Success? && s5.credit == 50000
    ensures var o := PlanTopUp(NewFullCardData(s0, s5, s6), 7, 100000, 20000, 0);
      && o == Charged(42, 7, 50000, 70000)
      && TopUpRow(o, deviceId, operatorId, 20000, now).finalCredit == 70000
      && TopUpUiState(InitialUiState(), o).currentCredit == 70000
  {
  }

  /** The outcome of `getHistoryFromCard` on a card read. */
  function HistoryUiState(s: HomeScreenUiState, card: FullCardData, uc: int): (r: HomeScreenUiState)
    ensures r.dialogState == ShowTransactions <==>
      && card.sector0.Sector0Success? && card.sector0.uc == uc && card.sector6.Sector6Success?
      && exists i :: 0 <= i < |card.sector6.transactions| && card.sector6.transactions[i].did != 0
    ensures r.dialogState == ShowTransactions ==>
      r.transactionList == Filter(card.sector6.transactions, (t: TransactionRecord) => t.did != 0)
    ensures r.dialogState != ShowTransactions ==> r.dialogState == Hidden && r.transactionList == s.transactionList
    ensures r.currentCredit == s.currentCredit && r.isCardOperationInProgress == s.isCardOperationInProgress
  {
    if !card.sector0.Sector0Success? then s.(snackbarMessage := Some(CardInfoUnreadable), dialogState := Hidden)
    else if card.sector0.uc != uc then s.(snackbarMessage := Some(WrongOrganizationRetry), dialogState := Hidden)
    else match card.sector6
      case Sector6Success(records) =>
        var shown := Filter(records, (t: TransactionRecord) => t.did != 0);
        ShownIffSomeDeviceRecord(records);
        if shown != [] then
          s.(transactionList := shown, dialogState := ShowTransactions)
        else
          s.(dialogState := Hidden, snackbarMessage := Some(CardHistoryEmpty))
      case Sector6Error(m) => s.(dialogState := Hidden, snackbarMessage := Some(CardHistoryUnreadable(m)))
  }

  /** Some record survives the device-id filter iff some record has a device id. */
  lemma ShownIffSomeDeviceRecord(records: seq<TransactionRecord>)
    ensures Filter(records, (t: TransactionRecord) => t.did != 0) != [] <==>
            exists i :: 0 <= i < |records| && records[i].did != 0
  {
    var shown := Filter(records, (t: TransactionRecord) => t.did != 0);
    if shown != [] {
      assert shown[0] in shown;
      var i :| 0 <= i < |records| && records[i] == shown[0];
    }
    forall i | 0 <= i < |records| && records[i].did != 0 ensures shown != [] {
      assert records[i] in records;
    }
  }

  /** The outcome of `readCardInfo` on a card read. */
  function CardInfoUiState(s: HomeScreenUiState, card: FullCardData, uc: int): (r: HomeScreenUiState)
    ensures r.dialogState == Hidden
    ensures r.currentCredit ==
      if card.sector0.Sector0Success? && card.sector0.uc == uc && card.sector5.Sector5Success?
      then card.sector5.credit else s.currentCredit
    ensures r.transactionList == s.transactionList && r.isCardOperationInProgress == s.isCardOperationInProgress
    ensures r.snackbarMessage.Some?
  {
    if !card.sector0.Sector0Success? then s.(snackbarMessage := Some(CardInfoUnreadable), dialogState := Hidden)
    else if card.sector0.uc != uc then s.(snackbarMessage := Some(WrongOrganizationRetry), dialogState := Hidden)
    else match card.sector5
      case Sector5Success(credit, _, _, _, _, _, _, _, _, _, _) =>
        s.(currentCredit := credit, snackbarMessage := Some(CardCredit(credit)), dialogState := Hidden)
      case Sector5Error(m) => s.(snackbarMessage := Some(CreditUnreadable(m)), dialogState := Hidden)
  }

  class HomeScreenViewModel {
    var uiState: HomeScreenUiState
    var saveState: SaveState
    /** `balanceFlow`: the device float as last observed in the balance table. */
    var balance: int
    var deviceId: int
    var operatorId: int
    const repository: SqlServerRepository

    ghost predicate Valid()
      reads this, repository.ledger, repository.credits, repository.users
    {
      repository.Valid()
    }

    constructor (repository: SqlServerRepository)
      ensures this.repository == repository
      ensures uiState == InitialUiState() && balance == 0 && deviceId == 0 && operatorId == 0
      ensures saveState == SaveState(false, false, None, None)
    {
      this.repository := repository;
      uiState := InitialUiState();
      saveState := SaveState(false, false, None, None);
      balance := 0;
      deviceId := 0;
      operatorId := 0;
    }

    /** `onEvent` for the events that only copy the UI state. */
    method OnEvent(e: UiEvent)
      modifies this
      ensures uiState == ApplyUiEvent(old(uiState), e)
      ensures saveState == old(saveState) && balance == old(balance)
      ensures deviceId == old(deviceId) && operatorId == old(operatorId)
    {
      uiState := ApplyUiEvent(uiState, e);
    }

    /** `updateOperatorId` */
    method UpdateOperatorId(id: int)
      modifies this
      ensures operatorId == id
      ensures uiState == old(uiState) && saveState == old(saveState) && balance == old(balance) && deviceId == old(deviceId)
    {
      operatorId := id;
    }

    /** One emission of `observeLocalBalance`: a stored, different value replaces the cached float. */
    method ObserveLocalBalance()
      requires Valid()
      modifies this
      ensures balance == ObserveBalance(repository.credits.balances).GetOr(old(balance))
      ensures uiState == old(uiState) && saveState == old(saveState)
      ensures deviceId == old(deviceId) && operatorId == old(operatorId)
    {
      var stored := ObserveBalance(repository.credits.balances);
      if stored.Some? && stored.value != balance {
        balance := stored.value;
      }
    }

    /** `saveTransaction`: dropped while a save runs; otherwise saved through the repository. */
    method SaveTransaction(t: Transaction, response: SqlResponse)
      requires Valid()
      modifies this, repository.ledger
      ensures Valid()
      ensures uiState == old(uiState) && balance == old(balance)
      ensures deviceId == old(deviceId) && operatorId == old(operatorId)
      ensures old(saveState.isSavingTransaction) ==>
        saveState == old(saveState) && repository.ledger.rows == old(repository.ledger.rows) &&
        repository.ledger.nextId == old(repository.ledger.nextId)
      ensures !old(saveState.isSavingTransaction) ==>
        && repository.ledger.rows == SavedRows(old(repository.ledger.rows), old(repository.ledger.nextId), t, response)
        && repository.ledger.nextId == InsertRow(old(repository.ledger.rows), old(repository.ledger.nextId), t).nextId
        && saveState == SaveState(
             false,
             response.Success?,
             if response.Success? then None
             else if response.Failure? then Some(ServerMessage(response.message))
             else Some(SendFailed),
             old(saveState.snackbarMessage))
    {
      if saveState.isSavingTransaction {
        return;
      }
      saveState := saveState.(isSavingTransaction := true, transactionError := None, transactionSaved := false);
      var r := repository.SaveRemoteTransaction(t, response);
      if r.Success? {
        saveState := saveState.(transactionSaved := true);
      } else {
        var error := if r.Failure? then ServerMessage(r.message) else SendFailed;
        saveState := saveState.(transactionError := Some(error));
      }
      saveState := saveState.(isSavingTransaction := false);
    }

    /**
     * `handleCardTopUp`: `card` is what the card read returned, `writeResult`
     * the status of the card write, `now` the registration time, and
     * `response` the server's answer when the ledger row is posted.
     */
    method HandleCardTopUp(payment: int, uc: int, card: FullCardData, writeResult: int, now: int, response: SqlResponse)
      requires Valid()
      modifies this, repository.ledger, repository.credits
      ensures Valid()
      ensures balance == old(balance) && deviceId == old(deviceId) && operatorId == old(operatorId)
      ensures old(uiState.isCardOperationInProgress) ==>
        && uiState == old(uiState)
        && saveState == old(saveState).(snackbarMessage := Some(OperationInProgress))
        && repository.ledger.rows == old(repository.ledger.rows)
        && repository.credits.balances == old(repository.credits.balances)
      ensures !old(uiState.isCardOperationInProgress) ==>
        var o := PlanTopUp(card, uc, old(balance), payment, writeResult);
        && uiState == TopUpUiState(old(uiState), o)
        && (!o.Charged? ==>
              && repository.ledger.rows == old(repository.ledger.rows)
              && repository.ledger.nextId == old(repository.ledger.nextId)
              && repository.credits.balances == old(repository.credits.balances)
              && saveState == old(saveState))
        && (o.Charged? ==>
              && repository.credits.balances ==
                   Upsert(old(repository.credits.balances), BalanceId, NewBalance(old(balance) - payment))
              && repository.ledger.rows ==
                   if old(saveState.isSavingTransaction) then old(repository.ledger.rows)
                   else SavedRows(old(repository.ledger.rows), old(repository.ledger.nextId),
                                  TopUpRow(o, old(deviceId), old(operatorId), payment, now), response))
      ensures repository.credits.credits == old(repository.credits.credits)
    {
      if uiState.isCardOperationInProgress {
        saveState := saveState.(snackbarMessage := Some(OperationInProgress));
        return;
      }
      ghost var o := PlanTopUp(card, uc, balance, payment, writeResult);
      var ui := uiState.(dialogState := ShowWaitingForCard, isCardOperationInProgress := true);
      if !card.sector0.Sector0Success? || card.sector0.uc != uc {
        var notice := if !card.sector0.Sector0Success? then CardInfoUnreadable else WrongOrganization;
        ui := ui.(dialogState := Hidden, snackbarMessage := Some(notice));
        assert o.CardUnreadable? || o.OrganizationMismatch?;
      } else if !card.sector5.Sector5Success? {
        ui := ui.(dialogState := Hidden, snackbarMessage := Some(InitialCreditUnreadable(card.sector5.message)));
        assert o == CreditReadFailed(card.sector5.message);
      } else if balance < payment {
        ui := ui.(dialogState := ShowResult(false), snackbarMessage := Some(FloatInsufficient));
        assert o == InsufficientFloat;
      } else {
        var preCredit := card.sector5.credit;
        var newCredit := preCredit + payment;
        if writeResult == 0 {
          ui := ui.(currentCredit := newCredit, dialogState := ShowResult(true));
          var row := NewTransaction(card.sector0.cardId, card.sector0.uc, deviceId, OperationIncrease,
                                    preCredit, payment, newCredit, now, operatorId);
          assert row == TopUpRow(o, deviceId, operatorId, payment, now);
          RecordCharge(payment, row, response);
        } else {
          ui := ui.(dialogState := ShowResult(false));
          assert o == WriteFailed(writeResult);
        }
      }
      var dialog := if ui.dialogState == ShowWaitingForCard then Hidden else ui.dialogState;
      uiState := ui.(isCardOperationInProgress := false, dialogState := dialog);
    }

    /**
     * What follows a successful card write: the float, less the payment, is
     * stored, and the ledger row is saved.
     */
    method RecordCharge(payment: int, row: Transaction, response: SqlResponse)
      requires Valid()
      modifies this, repository.ledger, repository.credits
      ensures Valid()
      ensures uiState == old(uiState) && balance == old(balance)
      ensures deviceId == old(deviceId) && operatorId == old(operatorId)
      ensures repository.credits.credits == old(repository.credits.credits)
      ensures repository.credits.balances == Upsert(old(repository.credits.balances), BalanceId, NewBalance(old(balance) - payment))
      ensures repository.ledger.rows ==
        if old(saveState.isSavingTransaction) then old(repository.ledger.rows)
        else SavedRows(old(repository.ledger.rows), old(repository.ledger.nextId), row, response)
    {
      repository.credits.InsertBalance(NewBalance(balance - payment));
      SaveTransaction(row, response);
    }

    /** `readCardInfo` on the card read `card`. */
    method ReadCardInfo(card: FullCardData, uc: int)
      modifies this
      ensures uiState == CardInfoUiState(old(uiState), card, uc)
      ensures saveState == old(saveState) && balance == old(balance)
      ensures deviceId == old(deviceId) && operatorId == old(operatorId)
    {
      uiState := uiState.(dialogState := ShowWaitingForCard);
      if !card.sector0.Sector0Success? {
        uiState := uiState.(snackbarMessage := Some(CardInfoUnreadable));
        uiState := uiState.(dialogState := Hidden);
      } else if card.sector0.uc != uc {
        uiState := uiState.(snackbarMessage := Some(WrongOrganizationRetry));
        uiState := uiState.(dialogState := Hidden);
      } else {
        match card.sector5
        case Sector5Success(credit, _, _, _, _, _, _, _, _, _, _) =>
          uiState := uiState.(currentCredit := credit, snackbarMessage := Some(CardCredit(credit)));
        case Sector5Error(m) =>
          uiState := uiState.(snackbarMessage := Some(CreditUnreadable(m)));
      }
      uiState := uiState.(dialogState := Hidden);
    }

    /** `getHistoryFromCard` on the card read `card`: only records with a device id are shown. */
    method GetHistoryFromCard(card: FullCardData, uc: int)
      modifies this
      ensures uiState == HistoryUiState(old(uiState), card, uc)
      ensures saveState == old(saveState) && balance == old(balance)
      ensures deviceId == old(deviceId) && operatorId == old(operatorId)
    {
      uiState := uiState.(dialogState := ShowWaitingForCard);
      if !card.sector0.Sector0Success? {
        uiState := uiState.(snackbarMessage := Some(CardInfoUnreadable));
        uiState := uiState.(dialogState := Hidden);
        return;
      }
      if card.sector0.uc != uc {
        uiState := uiState.(snackbarMessage := Some(WrongOrganizationRetry));
        uiState := uiState.(dialogState := Hidden);
        return;
      }
      match card.sector6
      case Sector6Success(records) =>
        var shown := Filter(records, (t: TransactionRecord) => t.did != 0);
        if shown != [] {
          uiState := uiState.(transactionList := shown, dialogState := ShowTransactions);
        } else {
          uiState := uiState.(dialogState := Hidden, snackbarMessage := Some(CardHistoryEmpty));
        }
      case Sector6Error(m) =>
        uiState := uiState.(dialogState := Hidden, snackbarMessage := Some(CardHistoryUnreadable(m)));
    }
  }
}
