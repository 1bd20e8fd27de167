/**
 * The stand-alone sell form (SellForm component). The USDT always leaves
 * from the platform wallet; every amount edit is checked against the
 * `walletBalance` prop, and so is the submit.
 */
module SellFormState {
  import opened FormValues
  import opened Trade

  /** The wallet every sell is paid from. */
  const PlatformWallet: string := "platform_wallet"

  datatype SellData = SellData(
    amountUsdt: Text,
    amountInr: Text,
    bankAccount: string,
    exchange: string)

  /** One `handleInputChange(field, value)` call; the form edits only these three fields. */
  datatype Edit =
    | EditUsdt(usdt: Text)
    | EditInr(inr: Text)
    | EditBank(bank: string)

  datatype SellRequest = SellRequest(data: SellData, quote: Quote, exchangeWallet: string)

  /** The submit button's `disabled` expression. */
  predicate Disabled(isProcessing: bool, data: SellData, walletBalance: real, notice: BalanceNotice) {
    || isProcessing
    || data.amountUsdt.Blank?
    || data.bankAccount == ""
    || Exceeds(ParseFloat(data.amountUsdt), walletBalance)
    || notice != NoNotice
  }

  /** The guard of `handleSubmit`. */
  predicate SubmitBlocked(data: SellData, walletBalance: real) {
    OrZero(ParseFloat(data.amountUsdt)) > walletBalance
  }

  /**
   * The button and the handler agree: an enabled button means the USDT
   * amount is set, within the wallet balance, and the handler will submit.
   */
  lemma EnabledImpliesSubmittable(data: SellData, walletBalance: real, notice: BalanceNotice)
    requires !Disabled(false, data, walletBalance, notice)
    ensures data.amountUsdt.Dec? && data.amountUsdt.value <= walletBalance
    ensures !SubmitBlocked(data, walletBalance)
    ensures data.bankAccount != "" && notice == NoNotice
  {
  }

  class SellForm {
    var formData: SellData
    var balanceError: BalanceNotice

    /** Nothing ever edits the exchange, so it keeps its default. */
    ghost predicate Valid()
      reads this
    {
      formData.exchange == PlatformWallet
    }

    constructor ()
      ensures Valid()
      ensures formData == SellData(Blank, Blank, "", PlatformWallet) && balanceError == NoNotice
    {
      formData := SellData(Blank, Blank, "", PlatformWallet);
      balanceError := NoNotice;
    }

    /**
     * `handleInputChange`: a non-empty USDT edit derives INR and checks the
     * USDT against the balance; a non-empty INR edit derives USDT and checks
     * the derived USDT. Empty amount edits and bank edits leave the notice.
     */
    method HandleInputChange(edit: Edit, rate: real, walletBalance: real)
      requires Valid() && rate > 0.0
      modifies this
      ensures Valid()
      ensures edit.EditUsdt? && edit.usdt.Dec? ==>
        && formData == old(formData).(amountUsdt := edit.usdt, amountInr := Dec(UsdtToInr(edit.usdt.value, rate)))
        && (balanceError == Insufficient(walletBalance) <==> edit.usdt.value > walletBalance)
        && (balanceError == NoNotice <==> edit.usdt.value <= walletBalance)
      ensures edit.EditInr? && edit.inr.Dec? ==>
        && formData == old(formData).(amountInr := edit.inr, amountUsdt := Dec(InrToUsdt(edit.inr.value, rate)))
        && (balanceError == Insufficient(walletBalance) <==> InrToUsdt(edit.inr.value, rate) > walletBalance)
        && (balanceError == NoNotice <==> InrToUsdt(edit.inr.value, rate) <= walletBalance)
      ensures edit.EditUsdt? && edit.usdt.Blank? ==>
        formData == old(formData).(amountUsdt := Blank) && balanceError == old(balanceError)
      ensures edit.EditInr? && edit.inr.Blank? ==>
        formData == old(formData).(amountInr := Blank) && balanceError == old(balanceError)
      ensures edit.EditBank? ==>
        formData == old(formData).(bankAccount := edit.bank) && balanceError == old(balanceError)
    {
      var newData := formData;
      match edit {
        case EditUsdt(v) =>
          newData := newData.(amountUsdt := v);
        case EditInr(v) =>
          newData := newData.(amountInr := v);
        case EditBank(v) =>
          newData := newData.(bankAccount := v);
      }
      if edit.EditUsdt? && edit.usdt.Dec? {
        newData := newData.(amountInr := Dec(UsdtToInr(edit.usdt.value, rate)));
        var requestedAmount := OrZero(ParseFloat(edit.usdt));
        if requestedAmount > walletBalance {
          balanceError := Insufficient(walletBalance);
        } else {
          balanceError := NoNotice;
        }
      } else if edit.EditInr? && edit.inr.Dec? {
        var derived := Dec(InrToUsdt(edit.inr.value, rate));
        newData := newData.(amountUsdt := derived);
        var requestedAmount := OrZero(ParseFloat(derived));
        if requestedAmount > walletBalance {
          balanceError := Insufficient(walletBalance);
        } else {
          balanceError := NoNotice;
        }
      }
      formData := newData;
    }

    /**
     * `handleSubmit`: a USDT amount above the wallet balance sets the notice
     * and returns without calling `onSubmit`; otherwise the request is a
     * sell quote paid from the platform wallet.
     */
    method HandleSubmit(rate: real, walletBalance: real) returns (sent: Option<SellRequest>)
      requires Valid()
      modifies this`balanceError
      ensures Valid()
      ensures sent.None? <==> SubmitBlocked(formData, walletBalance)
      ensures sent.None? ==> balanceError == Insufficient(walletBalance)
      ensures sent.Some? ==> balanceError == old(balanceError)
      ensures sent.Some? ==> sent.value == SellRequest(formData, QuoteFor(Sell, formData.amountInr, rate), PlatformWallet)
      ensures sent.Some? ==> sent.value.exchangeWallet == PlatformWallet && sent.value.data.exchange == PlatformWallet
    {
      var requestedAmount := OrZero(ParseFloat(formData.amountUsdt));
      if requestedAmount > walletBalance {
        balanceError := Insufficient(walletBalance);
        return None;
      }
      var fees := FormFees(OrZero(ParseFloat(formData.amountInr)));
      var netAmount := AddTo(ParseFloat(formData.amountInr), -fees.totalFee);
      sent := Some(SellRequest(formData, Quote(rate, fees, netAmount), PlatformWallet));
    }

    predicate SubmitDisabled(isProcessing: bool, walletBalance: real)
      reads this
    {
      Disabled(isProcessing, formData, walletBalance, balanceError)
    }
  }
}
