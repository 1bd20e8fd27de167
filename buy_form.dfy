/**
 * The stand-alone buy form (BuyForm component): two linked amount fields,
 * the exchange, bank account and wallet selections, and a submit that
 * always reaches `onSubmit` with a buy quote.
 */
module BuyFormState {
  import opened FormValues
  import opened Trade

  datatype BuyData = BuyData(
    amountInr: Text,
    amountUsdt: Text,
    exchange: string,
    bankAccount: string,
    exchangeWallet: string)

  /** One `handleInputChange(field, value)` call, by field. */
  datatype Edit =
    | EditInr(inr: Text)
    | EditUsdt(usdt: Text)
    | EditExchange(exchange: string)
    | EditBank(bank: string)
    | EditWallet(wallet: string)

  datatype BuyRequest = BuyRequest(data: BuyData, quote: Quote)

  /** The submit button's `disabled` expression. */
  predicate Disabled(isProcessing: bool, data: BuyData) {
    isProcessing || data.amountInr.Blank? || data.exchange == "" || data.bankAccount == "" || data.exchangeWallet == ""
  }

  /**
   * Whatever the button lets through is a complete buy: the INR amount is
   * set, so the net amount is a number, and it is the amount plus the fees.
   */
  lemma EnabledRequestIsPriced(data: BuyData, rate: real)
    requires !Disabled(false, data)
    ensures QuoteFor(Buy, data.amountInr, rate).netAmount.Num?
    ensures QuoteFor(Buy, data.amountInr, rate).netAmount.value
         == data.amountInr.value + QuoteFor(Buy, data.amountInr, rate).fees.totalFee
    ensures data.amountInr.value >= 0.0 ==>
      QuoteFor(Buy, data.amountInr, rate).netAmount.value >= data.amountInr.value
  {
    if data.amountInr.value >= 0.0 {
      QuoteNetOrdering(data.amountInr, rate);
    }
  }

  class BuyForm {
    var formData: BuyData

    constructor ()
      ensures formData == BuyData(Blank, Blank, "", "", "")
    {
      formData := BuyData(Blank, Blank, "", "", "");
    }

    /** The effect run when `quickAmount` or `currentRate` changes (a quick amount of 0 is falsy). */
    method ApplyQuickAmount(quickAmount: real, rate: real)
      requires rate > 0.0
      modifies this
      ensures quickAmount == 0.0 ==> formData == old(formData)
      ensures quickAmount != 0.0 ==>
        formData == old(formData).(amountInr := Dec(quickAmount), amountUsdt := Dec(InrToUsdt(quickAmount, rate)))
    {
      if quickAmount != 0.0 {
        formData := formData.(amountInr := Dec(quickAmount), amountUsdt := Dec(InrToUsdt(quickAmount, rate)));
      }
    }

    /** `handleInputChange`: store the field; a non-empty amount edit recomputes the other amount. */
    method HandleInputChange(edit: Edit, rate: real)
      requires rate > 0.0
      modifies this
      ensures edit.EditInr? ==> formData == old(formData).(amountInr := edit.inr,
        amountUsdt := if edit.inr.Dec? then Dec(InrToUsdt(edit.inr.value, rate)) else old(formData.amountUsdt))
      ensures edit.EditUsdt? ==> formData == old(formData).(amountUsdt := edit.usdt,
        amountInr := if edit.usdt.Dec? then Dec(UsdtToInr(edit.usdt.value, rate)) else old(formData.amountInr))
      ensures edit.EditExchange? ==> formData == old(formData).(exchange := edit.exchange)
      ensures edit.EditBank? ==> formData == old(formData).(bankAccount := edit.bank)
      ensures edit.EditWallet? ==> formData == old(formData).(exchangeWallet := edit.wallet)
    {
      var newData := formData;
      match edit {
        case EditInr(v) =>
          newData := newData.(amountInr := v);
          if v.Dec? {
            newData := newData.(amountUsdt := Dec(InrToUsdt(v.value, rate)));
          }
        case EditUsdt(v) =>
          newData := newData.(amountUsdt := v);
          if v.Dec? {
            newData := newData.(amountInr := Dec(UsdtToInr(v.value, rate)));
          }
        case EditExchange(v) =>
          newData := newData.(exchange := v);
        case EditBank(v) =>
          newData := newData.(bankAccount := v);
        case EditWallet(v) =>
          newData := newData.(exchangeWallet := v);
      }
      formData := newData;
    }

    /** `handleSubmit`: the request carries the form data, the current rate and the buy quote. */
    method HandleSubmit(rate: real) returns (sent: BuyRequest)
      ensures sent.data == formData
      ensures sent.quote.rate == rate
      ensures sent.quote.fees == FormFees(OrZero(ParseFloat(formData.amountInr)))
      ensures sent.quote.netAmount == AddTo(ParseFloat(formData.amountInr), sent.quote.fees.totalFee)
    {
      var fees := FormFees(OrZero(ParseFloat(formData.amountInr)));
      var netAmount := AddTo(ParseFloat(formData.amountInr), fees.totalFee);
      sent := BuyRequest(formData, Quote(rate, fees, netAmount));
    }

    predicate SubmitDisabled(isProcessing: bool)
      reads this
    {
      Disabled(isProcessing, formData)
    }
  }
}
