/**
 * The two decisions the home screen makes itself (HomeScreen.kt): whether
 * a typed amount is acceptable, and what to do with the payment result the
 * card terminal's payment app sends back.
 */
module HomeScreen {
  import opened Wrappers
  import opened Text
  import opened HomeViewModel

  const MinAmount: int := 2000
  const MaxAmount: int := 1_000_000_000

  /** `isValidAmount`: `toLong()` succeeds and the value lies in [2000, 1,000,000,000]; a parse error is `false`. */
  function IsValidAmount(s: string): (r: bool)
    ensures r <==> ToLongOrNull(s).Some? && MinAmount <= ToLongOrNull(s).value <= MaxAmount
  {
    match ToLongOrNull(s)
    case Some(v) => MinAmount <= v <= MaxAmount
    case None => false
  }

  /** A number written out in decimal is valid exactly when it lies in the range. */
  lemma ValidAmountOfNumber(n: int)
    ensures IsValidAmount(DecimalString(n)) <==> MinAmount <= n <= MaxAmount
  {
    ParseDecimalString(n, LongMin, LongMax);
  }

  /** A string with a character that is neither a digit nor a leading sign is never valid. */
  lemma NonNumericAmountInvalid(s: string, k: nat)
    requires k < |s| && !IsDigit(s[k])
    requires k > 0 || (s[0] != '-' && s[0] != '+')
    ensures !IsValidAmount(s)
  {
    NonNumericNeverParses(s, k, LongMin, LongMax);
  }

  /** The fields of the payment app's result that the screen reads. */
  datatype PaymentResult = PaymentResult(status: Option<string>, amount: Option<string>, responseMessage: Option<string>)

  /** What the screen does with a payment result. */
  datatype PaymentDecision =
    | EmptyResult                              // the "no information" snackbar
    | Unparseable                              // the "could not process" snackbar
    | TopUp(amount: int, uc: int)              // `onEvent(TopUpCard(amount), uc)`
    | AmountUnknown                            // paid, but no amount to charge
    | PaymentFailed(message: Option<string>)   // the app's message, or the default text when it sent none

  /** The organisation code handed to the workflow: the device's `uc` if it parses as an Int, else 1. */
  function CardUc(deviceUc: Option<string>): (uc: int)
    ensures deviceUc.Some? && ToIntOrNull(deviceUc.value).Some? ==> uc == ToIntOrNull(deviceUc.value).value
    ensures (deviceUc.None? || ToIntOrNull(deviceUc.value).None?) ==> uc == 1
  {
    match deviceUc
    case None => 1
    case Some(text) => ToIntOrNull(text).GetOr(1)
  }

  /**
   * The `newIntent` handler. `resultJson` is the intent's extra, `parsed`
   * what parsing it gave (`None` when parsing threw), `dialog` the current
   * dialog and `deviceUc` the stored device's organisation code.
   */
  function DecidePayment(resultJson: Option<string>, parsed: Option<PaymentResult>, dialog: DialogState,
                         deviceUc: Option<string>): (d: PaymentDecision)
    ensures (resultJson.None? || IsBlank(resultJson.value)) ==> d == EmptyResult
    ensures d.TopUp? ==> d.amount > 0 && d.uc == CardUc(deviceUc)
    ensures d.TopUp? || d == AmountUnknown ==> parsed.Some? && parsed.value.status == Some("0")
    ensures d.PaymentFailed? ==> parsed.Some? && parsed.value.status != Some("0") && d.message == parsed.value.responseMessage
  {
    if resultJson.None? || IsBlank(resultJson.value) then EmptyResult
    else match parsed
      case None => Unparseable
      case Some(p) =>
        if p.status == Some("0") then
          var requested :=
            if dialog.ShowConfirmTopUp? then dialog.amount
            else if p.amount.Some? then ToIntOrNull(p.amount.value).GetOr(0)
            else 0;
          if requested > 0 then TopUp(requested, CardUc(deviceUc)) else AmountUnknown
        else PaymentFailed(p.responseMessage)
  }

  /** While the confirmation dialog is open, its amount is what is charged, whatever the result says. */
  lemma ConfirmedAmountWins(json: string, p: PaymentResult, amount: int, deviceUc: Option<string>)
    requires !IsBlank(json) && p.status == Some("0") && amount > 0
    ensures DecidePayment(Some(json), Some(p), ShowConfirmTopUp(amount), deviceUc) == TopUp(amount, CardUc(deviceUc))
  {
  }

  /** Without the dialog, the result's own amount is charged when it is a positive Int, and nothing otherwise. */
  lemma ResultAmountUsed(json: string, p: PaymentResult, dialog: DialogState, deviceUc: Option<string>)
    requires !IsBlank(json) && p.status == Some("0") && !dialog.ShowConfirmTopUp?
    ensures var d := DecidePayment(Some(json), Some(p), dialog, deviceUc);
      && ((p.amount.Some? && ToIntOrNull(p.amount.value).Some? && ToIntOrNull(p.amount.value).value > 0) ==>
            d == TopUp(ToIntOrNull(p.amount.value).value, CardUc(deviceUc)))
      && (p.amount.None? || ToIntOrNull(p.amount.value).None? ==> d == AmountUnknown)
  {
  }

  /** A status other than "0" never charges a card. */
  lemma FailedPaymentNeverTopsUp(json: Option<string>, p: PaymentResult, dialog: DialogState, deviceUc: Option<string>)
    requires p.status != Some("0")
    ensures !DecidePayment(json, Some(p), dialog, deviceUc).TopUp?
  {
  }
}
