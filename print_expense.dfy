/** The expense screen of `src/screens/PrintExpense.tsx`: the ordered checks on
    the entered amount, the PIN gate, the merchant copy that creates the
    transaction once, and the client copy that only reprints. The backend's
    answer, the printer's outcome, the receipt number, the date and the UTC
    time are inputs of each handler. */
module PrintExpense {
  import opened Text
  import opened Numbers
  import opened Wrappers
  import opened Utils
  import opened ReceiptPrinter

  const EmptyAmount := Alert("Empty Expense Amount", "Expense Amount cannot be empty")
  const NotANumber := Alert("Invalid Amount", "Expense Amount entered is invalid. Only numbers are allowed")
  const NotPositive := Alert("Invalid Amount", "Please enter a valid amount")
  const OverBalance := Alert("Expense Limit Reached", "The Expense amount exceeds your balance")
  const WrongPin := Toast("Pin Code entered is incorrect")

  /** The checks of `onSaveAndPrintReceiptPressed`, in their order; the parsed
      price when all pass. */
  function CheckExpenseAmount(expensePrice: string, balance: real): Result<Num, Notice> {
    var t := Trim(expensePrice);
    CheckAmount(t, ParseFloat(t), balance)
  }

  /** The same checks on the trimmed input `t` and its parsed value `price`,
      which only the last two consult. */
  function CheckAmount(t: string, price: Num, balance: real): Result<Num, Notice> {
    if t == "" then Failure(EmptyAmount)
    else if !IsValidFloatNumber(t) then Failure(NotANumber)
    else if LessOrEqual(price, Finite(0.0)) then Failure(NotPositive)
    else if LessThan(Finite(balance), price) then Failure(OverBalance)
    else Success(price)
  }

  /** Each check fails with its own alert only when the earlier ones passed;
      an amount passing all four is the parsed trimmed input. */
  lemma CheckOrder(expensePrice: string, balance: real)
    ensures var t, r := Trim(expensePrice), CheckExpenseAmount(expensePrice, balance);
      && (t == "" ==> r == Failure(EmptyAmount))
      && (t != "" && !IsValidFloatNumber(t) ==> r == Failure(NotANumber))
      && (t != "" && IsValidFloatNumber(t) && LessOrEqual(ParseFloat(t), Finite(0.0)) ==> r == Failure(NotPositive))
      && ((t != "" && IsValidFloatNumber(t) && !LessOrEqual(ParseFloat(t), Finite(0.0))
           && LessThan(Finite(balance), ParseFloat(t))) ==> r == Failure(OverBalance))
      && (r.Success? <==> t != "" && IsValidFloatNumber(t) && !LessOrEqual(ParseFloat(t), Finite(0.0))
                          && !LessThan(Finite(balance), ParseFloat(t)))
      && (r.Success? ==> r.value == ParseFloat(t))
  {
    var t := Trim(expensePrice);
    assert CheckExpenseAmount(expensePrice, balance) == CheckAmount(t, ParseFloat(t), balance);
  }

  /** An accepted amount is a number in (0, balance], or NaN: a first
      character that cannot start a number (`x5`) passes the float check and
      then every comparison is false. */
  lemma AcceptedAmount(expensePrice: string, balance: real)
    requires CheckExpenseAmount(expensePrice, balance).Success?
    ensures var price := CheckExpenseAmount(expensePrice, balance).value;
      && (price.Finite? || price.NaN?)
      && (price.Finite? ==> 0.0 < price.value <= balance)
      && (price.NaN? <==> !IsNumberStart(Trim(expensePrice)[0]))
  {
    CheckOrder(expensePrice, balance);
    ValidFloatParse(Trim(expensePrice));
  }

  /** An amount equal to the balance is accepted; only a larger one is
      refused. */
  lemma BalanceItselfAccepted(d: string, balance: real)
    requires IsDigits(d) && DigitsValue(d) as real == balance && balance > 0.0
    ensures CheckExpenseAmount(d, balance) == Success(Finite(balance))
  {
    DigitsTrimmed(d);
    IntIsFloat(d);
    ParseFloatOfDigits(d);
    CheckPassing(d, balance, balance);
  }

  /** A trimmed, valid, positive amount within the balance passes. */
  lemma CheckPassing(t: string, v: real, balance: real)
    requires Trim(t) == t && t != "" && IsValidFloatNumber(t)
    requires ParseFloat(t) == Finite(v) && 0.0 < v <= balance
    ensures CheckExpenseAmount(t, balance) == Success(Finite(v))
  {
    CheckOrder(t, balance);
  }

  lemma TrimOfUnspaced(s: string)
    requires |s| > 0 && !IsSpace(s[0]) && !IsSpace(s[|s| - 1])
    ensures Trim(s) == s
  {
    assert TrimStart(s) == s;
    assert TrimEnd(s) == s;
  }

  lemma DigitsTrimmed(d: string)
    requires IsDigits(d)
    ensures Trim(d) == d
  {
    assert IsDigit(d[0]) && IsDigit(d[|d| - 1]);
    TrimOfUnspaced(d);
  }

  /** A character that cannot start a number, followed by digits (`x5`),
      passes every check as NaN, whatever the balance. */
  lemma {:induction false} NaNAmountAccepted(c: char, d: string, balance: real)
    requires !IsNumberStart(c) && !IsSpace(c) && IsDigits(d)
    ensures CheckExpenseAmount([c] + d, balance) == Success(NaN)
  {
    var s := [c] + d;
    assert s[1..] == d;
    assert AnyCharThenDigitsShape(s);
    assert !IsSpace(s[0]) && !IsSpace(s[|s| - 1]);
    TrimOfUnspaced(s);
    ParseFloatNoNumber(c, d);
    assert CheckAmount(s, NaN, balance) == Success(NaN);
  }

  /** `Transaction` built by `printForMerchant`. */
  datatype Transaction = Transaction(
    clientId: string,
    itemDescription: string,
    merchantId: string,
    issuanceHistoryId: string,
    dateTime: string,
    amountUser: Num)

  datatype ApiOutcome = ApiSuccess | ApiFailure(message: string)

  /** What the outside world contributes to one handler run. */
  datatype Effects = Effects(receiptNo: string, date: string, utcNow: string, api: ApiOutcome, printer: PrintOutcome)

  /** The screen's state variables. */
  datatype Flags = Flags(
    expensePrice: string,
    pinCode: string,
    hasPrintedForMerchant: bool,
    hasPinCodeVerified: bool,
    disableInput: bool,
    loading: bool,
    isConfirmationModalShown: bool)

  class PrintExpenseScreen {
    // Route parameters and the logged-in merchant.
    const client: Client
    const balance: real
    const issuanceHistoryId: string
    const pinCodeToVerify: string
    const merchantId: string
    const merchantName: string
    const show: Num -> string

    var expensePrice: string
    var pinCode: string
    var hasPrintedForMerchant: bool
    var hasPinCodeVerified: bool
    var disableInput: bool
    var loading: bool
    var isConfirmationModalShown: bool

    /** Transactions sent to the backend, texts sent to the printer, alerts
        and toasts shown, and whether the screen navigated back. */
    var posted: seq<Transaction>
    var printed: seq<string>
    var notices: seq<Notice>
    var wentBack: bool

    ghost function State(): Flags
      reads this
    {
      Flags(expensePrice, pinCode, hasPrintedForMerchant, hasPinCodeVerified, disableInput, loading, isConfirmationModalShown)
    }

    /** The merchant copy exists only after the PIN was verified, and every
        transaction sent is an expense of this client. */
    ghost predicate Valid()
      reads this
    {
      && (hasPrintedForMerchant ==> hasPinCodeVerified)
      && (forall i | 0 <= i < |posted| :: posted[i].clientId == client.id && posted[i].itemDescription == "Expense")
    }

    constructor(client: Client, balance: real, issuanceHistoryId: string, pinCodeToVerify: string,
                merchantId: string, merchantName: string, show: Num -> string)
      ensures Valid()
      ensures this.client == client && this.balance == balance && this.issuanceHistoryId == issuanceHistoryId
      ensures this.pinCodeToVerify == pinCodeToVerify && this.merchantId == merchantId
      ensures this.merchantName == merchantName && this.show == show
      ensures State() == Flags("", "", false, false, false, false, false)
      ensures posted == [] && printed == [] && notices == [] && !wentBack
    {
      this.client, this.balance, this.issuanceHistoryId := client, balance, issuanceHistoryId;
      this.pinCodeToVerify, this.merchantId, this.merchantName, this.show := pinCodeToVerify, merchantId, merchantName, show;
      expensePrice, pinCode := "", "";
      hasPrintedForMerchant, hasPinCodeVerified, disableInput, loading, isConfirmationModalShown := false, false, false, false, false;
      posted, printed, notices, wentBack := [], [], [], false;
    }

    /** The receipt both copies print: `printReceipt` is called without a
        payment type. */
    function Receipt(price: Num, fx: Effects): string
      reads this
    {
      ReceiptText(price, client, merchantName, None, fx.receiptNo, fx.date, show)
    }

    function ExpenseTransaction(price: Num, fx: Effects): (t: Transaction)
      reads this
      ensures t.clientId == client.id && t.itemDescription == "Expense" && t.amountUser == price
    {
      Transaction(client.id, "Expense", merchantId, issuanceHistoryId, fx.utcNow, price)
    }

    method OnExpensePriceTextChanged(text: string)
      modifies this
      ensures State() == old(State()).(expensePrice := text)
      ensures posted == old(posted) && printed == old(printed) && notices == old(notices) && wentBack == old(wentBack)
    {
      expensePrice := text;
    }

    method OnPinCodeTextChanged(text: string)
      modifies this
      ensures State() == old(State()).(pinCode := text)
      ensures posted == old(posted) && printed == old(printed) && notices == old(notices) && wentBack == old(wentBack)
    {
      pinCode := text;
    }

    /** `clearAllStates`: the PIN stays verified. */
    method ClearAllStates()
      modifies this
      ensures State() == old(State()).(expensePrice := "", hasPrintedForMerchant := false, disableInput := false, loading := false)
      ensures posted == old(posted) && printed == old(printed) && notices == old(notices) && wentBack == old(wentBack)
    {
      expensePrice, hasPrintedForMerchant, disableInput, loading := "", false, false, false;
    }

    method HideConfirmationModal()
      modifies this
      ensures State() == old(State()).(pinCode := "", isConfirmationModalShown := false)
      ensures posted == old(posted) && printed == old(printed) && notices == old(notices) && wentBack == old(wentBack)
    {
      pinCode, isConfirmationModalShown := "", false;
    }

    /** What `printForMerchant` leaves behind, starting from the flags
        `before`: the transaction is posted in every case; a backend failure
        unlocks the input; on success the printer either printed the copy
        (the merchant copy exists and the loader hides) or threw, leaving the
        input locked and the loader shown. */
    twostate predicate MerchantCopyMade(new before: Flags, price: Num, fx: Effects)
      reads this
    {
      && posted == old(posted) + [ExpenseTransaction(price, fx)]
      && wentBack == old(wentBack)
      && (fx.api.ApiFailure? ==>
        printed == old(printed) && State() == before.(disableInput := false, loading := false))
      && (fx.api.ApiSuccess? && fx.printer.PrintDone? ==>
        && printed == old(printed) + [Receipt(price, fx)]
        && State() == before.(hasPrintedForMerchant := true, disableInput := true, loading := false))
      && (fx.api.ApiSuccess? && fx.printer.PrintThrew? ==>
        printed == old(printed) && State() == before.(disableInput := true, loading := true))
    }

    /** `printForMerchant`: sends the transaction, then prints the merchant
        copy if the backend accepted it. A printer error is returned as the
        exception that escapes. */
    method PrintForMerchant(price: Num, fx: Effects) returns (thrown: Option<string>)
      requires Valid() && hasPinCodeVerified
      modifies this
      ensures Valid()
      ensures MerchantCopyMade(old(State()), price, fx)
      ensures notices == old(notices) + (if fx.api.ApiFailure? then [Toast(fx.api.message)] else [])
      ensures thrown == (if fx.api.ApiSuccess? && fx.printer.PrintThrew? then Some(fx.printer.message) else None)
    {
      disableInput, loading := true, true;
      posted := posted + [ExpenseTransaction(price, fx)];
      thrown := None;
      if fx.api.ApiSuccess? {
        if fx.printer.PrintThrew? {
          thrown := Some(fx.printer.message);
          return;
        }
        printed := printed + [Receipt(price, fx)];
        hasPrintedForMerchant, loading := true, false;
      } else {
        loading := false;
        notices := notices + [Toast(fx.api.message)];
        disableInput := false;
      }
    }

    /** The flags once a matching PIN has been accepted and the modal hidden. */
    function PinAccepted(s: Flags): Flags {
      s.(pinCode := "", hasPinCodeVerified := true, isConfirmationModalShown := false)
    }

    /** `onSubmitButtonPressed`: a matching PIN verifies, hides the modal and
        makes the merchant copy for the parsed amount; a wrong one only
        toasts. An error escaping `printForMerchant` is not caught, so it
        shows nothing. */
    method OnSubmitButtonPressed(fx: Effects) returns (price: Num)
      requires Valid()
      modifies this
      ensures Valid()
      ensures price == ParseFloat(Trim(old(expensePrice)))
      ensures old(pinCode) != pinCodeToVerify ==>
        && State() == old(State()) && posted == old(posted) && printed == old(printed)
        && notices == old(notices) + [WrongPin] && wentBack == old(wentBack)
      ensures old(pinCode) == pinCodeToVerify ==>
        && MerchantCopyMade(PinAccepted(old(State())), price, fx)
        && notices == old(notices) + (if fx.api.ApiFailure? then [Toast(fx.api.message)] else [])
    {
      price := ParseFloat(Trim(expensePrice));
      SubmitPin(price, fx);
    }

    /** The pin check of `onSubmitButtonPressed`, for the amount `price`. */
    method SubmitPin(price: Num, fx: Effects)
      requires Valid()
      modifies this
      ensures Valid()
      ensures old(pinCode) != pinCodeToVerify ==>
        && State() == old(State()) && posted == old(posted) && printed == old(printed)
        && notices == old(notices) + [WrongPin] && wentBack == old(wentBack)
      ensures old(pinCode) == pinCodeToVerify ==>
        && MerchantCopyMade(PinAccepted(old(State())), price, fx)
        && notices == old(notices) + (if fx.api.ApiFailure? then [Toast(fx.api.message)] else [])
    {
      if pinCode == pinCodeToVerify {
        hasPinCodeVerified := true;
        HideConfirmationModal();
        loading := true;
        var thrown := PrintForMerchant(price, fx);
      } else {
        notices := notices + [WrongPin];
      }
    }

    /** What the client copy leaves behind: nothing is posted; a printed copy
        is followed by the timer clearing the screen and going back; a printer
        error is alerted, with the input unlocked and the loader still shown. */
    twostate predicate Reprinted(price: Num, fx: Effects)
      reads this
    {
      && posted == old(posted)
      && (fx.printer.PrintDone? ==>
        && printed == old(printed) + [Receipt(price, fx)]
        && State() == old(State()).(expensePrice := "", hasPrintedForMerchant := false, disableInput := false, loading := false)
        && notices == old(notices) && wentBack)
      && (fx.printer.PrintThrew? ==>
        && printed == old(printed)
        && State() == old(State()).(disableInput := false, loading := true)
        && notices == old(notices) + [Alert("Error", fx.printer.message)] && wentBack == old(wentBack))
    }

    /** The client copy, once the merchant copy exists: printed without a
        backend call; on success the screen's timer clears it and goes back. */
    method Reprint(price: Num, fx: Effects)
      requires Valid()
      modifies this
      ensures Valid()
      ensures Reprinted(price, fx)
    {
      loading := true;
      if fx.printer.PrintDone? {
        printed := printed + [Receipt(price, fx)];
        ClearAllStates();
        wentBack := true;
      } else {
        notices := notices + [Alert("Error", fx.printer.message)];
        disableInput := false;
      }
    }

    /** The alerts of the merchant copy from the save button: the backend's
        toast, or the printer error that escaped `printForMerchant`. */
    function MerchantNotices(fx: Effects): seq<Notice> {
      if fx.api.ApiFailure? then [Toast(fx.api.message)]
      else if fx.printer.PrintThrew? then [Alert("Error Printing", ErrorText(fx.printer.message))]
      else []
    }

    /** The merchant copy from the save button: an error escaping
        `printForMerchant` is caught and alerted. */
    method MerchantCopy(price: Num, fx: Effects)
      requires Valid() && hasPinCodeVerified
      modifies this
      ensures Valid()
      ensures MerchantCopyMade(old(State()), price, fx)
      ensures notices == old(notices) + MerchantNotices(fx)
    {
      var thrown := PrintForMerchant(price, fx);
      if thrown.Some? {
        notices := notices + [Alert("Error Printing", ErrorText(thrown.value))];
      }
    }

    /** `onSaveAndPrintReceiptPressed`: the checks, then the PIN gate, then
        the client copy if the merchant copy exists, else the merchant copy. */
    method OnSaveAndPrintReceiptPressed(fx: Effects) returns (checked: Result<Num, Notice>)
      requires Valid()
      modifies this
      ensures Valid()
      ensures checked == CheckExpenseAmount(old(expensePrice), balance)
      ensures Handled(checked, fx)
    {
      checked := CheckExpenseAmount(expensePrice, balance);
      AfterCheck(checked, fx);
    }

    /** What the handler does once the checks have given `checked`. */
    twostate predicate Handled(new checked: Result<Num, Notice>, fx: Effects)
      reads this
    {
      // A failed check shows its alert and changes nothing else.
      && (checked.Failure? ==>
        && State() == old(State()) && posted == old(posted) && printed == old(printed) && wentBack == old(wentBack)
        && notices == old(notices) + [checked.error])
      // Before the PIN is verified, a valid amount only opens the modal.
      && (checked.Success? && !old(hasPinCodeVerified) ==>
        && State() == old(State()).(isConfirmationModalShown := true)
        && posted == old(posted) && printed == old(printed) && notices == old(notices) && wentBack == old(wentBack))
      // After the merchant copy, the client copy is printed without a backend call.
      && (checked.Success? && old(hasPinCodeVerified) && old(hasPrintedForMerchant) ==>
        Reprinted(checked.value, fx))
      // Otherwise the merchant copy: one transaction for the checked price.
      && (checked.Success? && old(hasPinCodeVerified) && !old(hasPrintedForMerchant) ==>
        MerchantCopyMade(old(State()), checked.value, fx) && notices == old(notices) + MerchantNotices(fx))
    }

    method AfterCheck(checked: Result<Num, Notice>, fx: Effects)
      requires Valid()
      modifies this
      ensures Valid()
      ensures Handled(checked, fx)
    {
      if checked.Failure? {
        notices := notices + [checked.error];
      } else if !hasPinCodeVerified {
        isConfirmationModalShown := true;
      } else if hasPrintedForMerchant {
        Reprint(checked.value, fx);
      } else {
        MerchantCopy(checked.value, fx);
      }
    }
  }
}
