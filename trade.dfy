/**
 * Trade vocabulary shared by TradeForm, BuyForm and SellForm: the two sides
 * of a trade, the INR <-> USDT conversions of their amount fields, and the
 * fee quote the three forms compute identically (`calculateFees`) and then
 * attach to the request they hand to `onSubmit`.
 */
module Trade {
  import opened FormValues

  datatype Side = Buy | Sell

  /** 1.5 % platform fee on the INR amount. */
  const PlatformFeeRate: real := 0.015

  /** Flat network fee, charged whenever the INR amount is positive. */
  const NetworkFeeFlat: real := 25.0

  datatype Fees = Fees(platformFee: real, networkFee: real, totalFee: real)

  /** The `balanceError` message: empty, or "Insufficient balance! You have <available> USDT available." */
  datatype BalanceNotice = NoNotice | Insufficient(available: real)

  /**
   * `(inr / currentRate).toFixed(6)`: the USDT amount shown when the INR
   * field is edited.
   */
  function InrToUsdt(inr: real, rate: real): (usdt: real)
    requires rate > 0.0
    ensures Abs(usdt - inr / rate) <= 0.0000005
    ensures IsMicros(usdt)
    ensures inr >= 0.0 ==> usdt >= 0.0
  {
    ToFixed6IsMicros(inr / rate);
    ToFixed6(inr / rate)
  }

  /**
   * `(usdt * currentRate).toFixed(2)`: the INR amount shown when the USDT
   * field is edited.
   */
  function UsdtToInr(usdt: real, rate: real): (inr: real)
    requires rate > 0.0
    ensures Abs(inr - usdt * rate) <= 0.005
    ensures IsCents(inr)
  {
    ToFixed2IsCents(usdt * rate);
    ToFixed2(usdt * rate)
  }

  /**
   * Converting INR to USDT and back loses at most one paisa, as long as the
   * rate stays below 10000 INR per USDT: the 6-decimal rounding then costs
   * at most 0.005 INR and the 2-decimal rounding another 0.005.
   */
  lemma ConversionRoundTrip(inr: real, rate: real)
    requires 0.0 < rate <= 10000.0
    ensures Abs(UsdtToInr(InrToUsdt(inr, rate), rate) - inr) <= 0.01
  {
    RoundTripBack(inr, rate, InrToUsdt(inr, rate));
  }

  /** Converting back any USDT amount within the 6-decimal error of INR / rate. */
  lemma RoundTripBack(inr: real, rate: real, usdt: real)
    requires 0.0 < rate <= 10000.0
    requires Abs(usdt - inr / rate) <= 0.0000005
    ensures Abs(UsdtToInr(usdt, rate) - inr) <= 0.01
  {
    RoundTripError(inr, rate, usdt, UsdtToInr(usdt, rate));
  }

  /** The two rounding errors of the round trip add up to at most one paisa. */
  lemma RoundTripError(inr: real, rate: real, usdt: real, back: real)
    requires 0.0 < rate <= 10000.0
    requires Abs(usdt - inr / rate) <= 0.0000005
    requires Abs(back - usdt * rate) <= 0.005
    ensures Abs(back - inr) <= 0.01
  {
    var e := usdt - inr / rate;
    ScaledError(e, rate);
    assert e * rate == usdt * rate - inr by {
      assert (inr / rate) * rate == inr;
    }
  }

  /** A 6-decimal rounding error, multiplied by a rate of at most 10000, stays within half a paisa. */
  lemma ScaledError(e: real, rate: real)
    requires Abs(e) <= 0.0000005 && 0.0 < rate <= 10000.0
    ensures Abs(e * rate) <= 0.005
  {
    if e >= 0.0 {
      assert e * rate <= 0.0000005 * rate;
    } else {
      assert (-e) * rate <= 0.0000005 * rate;
    }
  }

  /**
   * `calculateFees()` of the three forms: the platform fee is NOT rounded,
   * the network fee applies only to a positive amount. `amount` is
   * `parseFloat(formData.amount_inr) || 0`.
   */
  function FormFees(amount: real): (f: Fees)
    ensures f.totalFee == f.platformFee + f.networkFee
    ensures f.platformFee == PlatformFeeRate * amount
    ensures f.networkFee == NetworkFeeFlat <==> amount > 0.0
    ensures f.networkFee == 0.0 <==> amount <= 0.0
  {
    var platformFee := amount * PlatformFeeRate;
    var networkFee := if amount > 0.0 then NetworkFeeFlat else 0.0;
    Fees(platformFee, networkFee, platformFee + networkFee)
  }

  /** The form fees of a non-negative amount are non-negative and at least 1.5 % of it. */
  lemma FormFeesBounds(amount: real)
    requires amount >= 0.0
    ensures FormFees(amount).platformFee >= 0.0
    ensures FormFees(amount).totalFee >= PlatformFeeRate * amount
    ensures amount > 0.0 ==> FormFees(amount).totalFee > NetworkFeeFlat
  {
  }

  /**
   * `netAmount` of the forms: the INR total payable on a buy, the INR paid
   * out on a sell. The INR field is parsed without `|| 0`, so an empty
   * field gives NaN.
   */
  function FormNet(side: Side, amountInr: JsNumber, totalFee: real): (net: JsNumber)
    ensures net.Num? <==> amountInr.Num?
    ensures amountInr.Num? && side == Buy ==> net.value == amountInr.value + totalFee
    ensures amountInr.Num? && side == Sell ==> net.value == amountInr.value - totalFee
  {
    match side
    case Buy => AddTo(amountInr, totalFee)
    case Sell => AddTo(amountInr, -totalFee)
  }

  /** What the forms attach to a request: the rate used and the fee quote. */
  datatype Quote = Quote(rate: real, fees: Fees, netAmount: JsNumber)

  /** The quote a form computes for its current INR field and side. */
  function QuoteFor(side: Side, amountInr: Text, rate: real): (q: Quote)
    ensures q.rate == rate
    ensures q.fees == FormFees(OrZero(ParseFloat(amountInr)))
    ensures q.netAmount == FormNet(side, ParseFloat(amountInr), q.fees.totalFee)
  {
    var fees := FormFees(OrZero(ParseFloat(amountInr)));
    Quote(rate, fees, FormNet(side, ParseFloat(amountInr), fees.totalFee))
  }

  /** On a non-negative amount a buy costs at least the amount, a sell pays out at most the amount. */
  lemma QuoteNetOrdering(amountInr: Text, rate: real)
    requires amountInr.Dec? && amountInr.value >= 0.0
    ensures QuoteFor(Buy, amountInr, rate).netAmount.value >= amountInr.value
    ensures QuoteFor(Sell, amountInr, rate).netAmount.value <= amountInr.value
    ensures amountInr.value > 0.0 ==>
      QuoteFor(Buy, amountInr, rate).netAmount.value - QuoteFor(Sell, amountInr, rate).netAmount.value
        == 2.0 * (PlatformFeeRate * amountInr.value + NetworkFeeFlat)
  {
    FormFeesBounds(amountInr.value);
  }
}
