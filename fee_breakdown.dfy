/**
 * The figures at the top of the FeeBreakdown component, which the trade
 * forms render next to their own fee quote. Unlike the forms' quote, every
 * figure here goes through `toFixed(2)`.
 */
module FeeBreakdown {
  import opened FormValues
  import opened Trade

  datatype Breakdown = Breakdown(platformFee: real, networkFee: real, totalFee: real, netAmount: real)

  /** The platform fee shown: 1.5 % rounded to two decimals, or 0 for a zero amount. */
  function PlatformFee(amount: real): (fee: real)
    ensures amount == 0.0 ==> fee == 0.0
    ensures Abs(fee - PlatformFeeRate * amount) <= 0.005
    ensures IsCents(fee)
    ensures amount >= 0.0 ==> fee >= 0.0
  {
    if amount != 0.0 then
      ToFixed2IsCents(amount * PlatformFeeRate);
      ToFixed2(amount * PlatformFeeRate)
    else 0.0
  }

  /**
   * The displayed breakdown for `amount` (a parsed, non-empty INR field) and
   * `type`: every figure shown has two decimals, and the total and the net
   * are within half a paisa of the sums they round.
   */
  function Compute(amount: real, side: Side): (b: Breakdown)
    ensures IsCents(b.platformFee) && IsCents(b.networkFee) && IsCents(b.totalFee) && IsCents(b.netAmount)
    ensures Abs(b.totalFee - (b.platformFee + b.networkFee)) <= 0.005
    ensures Abs(b.netAmount - (if side == Buy then amount + b.totalFee else amount - b.totalFee)) <= 0.005
  {
    var platformFee := PlatformFee(amount);
    var networkFee := if amount > 0.0 then NetworkFeeFlat else 0.0;
    var totalFee := ToFixed2(platformFee + networkFee);
    var netAmount := if side == Buy then ToFixed2(amount + totalFee) else ToFixed2(amount - totalFee);
    assert IsCents(networkFee);
    ToFixed2IsCents(platformFee + networkFee);
    ToFixed2IsCents(if side == Buy then amount + totalFee else amount - totalFee);
    Breakdown(platformFee, networkFee, totalFee, netAmount)
  }

  /**
   * The rounded total is exactly platform fee plus network fee, because both
   * parts already have two decimals; the network fee is 25 iff the amount is
   * positive.
   */
  lemma TotalIsSumOfParts(amount: real, side: Side)
    ensures Compute(amount, side).networkFee == (if amount > 0.0 then NetworkFeeFlat else 0.0)
    ensures Compute(amount, side).totalFee
         == Compute(amount, side).platformFee + Compute(amount, side).networkFee
    ensures IsCents(Compute(amount, side).totalFee)
  {
    var p := PlatformFee(amount);
    var n := if amount > 0.0 then NetworkFeeFlat else 0.0;
    assert IsCents(n);
    ToFixed2OfCentsSum(p, n);
    assert IsCents(p + n) by {
      assert (p + n) * 100.0 == p * 100.0 + n * 100.0;
    }
  }

  /**
   * The net shown is the amount plus (buy) or minus (sell) the total fee,
   * exactly when the amount has at most two decimals and to within half a
   * paisa otherwise.
   */
  lemma NetAmountMeaning(amount: real, side: Side)
    ensures var b := Compute(amount, side);
      var exact := if side == Buy then amount + b.totalFee else amount - b.totalFee;
      Abs(b.netAmount - exact) <= 0.005 && (IsCents(amount) ==> b.netAmount == exact)
  {
    TotalIsSumOfParts(amount, side);
    var t := Compute(amount, side).totalFee;
    if IsCents(amount) {
      ToFixed2OfCentsSum(amount, t);
      assert IsCents(-t) by {
        assert (-t * 100.0).Floor == -((t * 100.0).Floor);
      }
      ToFixed2OfCentsSum(amount, -t);
    }
  }

  /** For a non-negative amount: buy net >= amount >= sell net. */
  lemma NetOrdering(amount: real)
    requires amount >= 0.0
    ensures Compute(amount, Buy).netAmount >= amount >= Compute(amount, Sell).netAmount
  {
    TotalIsSumOfParts(amount, Buy);
    TotalIsSumOfParts(amount, Sell);
    if amount == 0.0 {
      ToFixed2OfCents(0.0);
    }
  }

  /** The displayed total differs from the forms' unrounded total by at most half a paisa. */
  lemma AgreesWithFormFees(amount: real, side: Side)
    ensures Compute(amount, side).networkFee == FormFees(amount).networkFee
    ensures Abs(Compute(amount, side).totalFee - FormFees(amount).totalFee) <= 0.005
  {
    TotalIsSumOfParts(amount, side);
  }

  /** 1000 INR: platform 15.00, network 25, total 40.00, buy net 1040.00, sell net 960.00. */
  lemma ThousandRupees()
    ensures Compute(1000.0, Buy) == Breakdown(15.0, 25.0, 40.0, 1040.0)
    ensures Compute(1000.0, Sell) == Breakdown(15.0, 25.0, 40.0, 960.0)
  {
    assert (1000.0 * PlatformFeeRate * 100.0 + 0.5).Floor == 1500;
    assert PlatformFee(1000.0) == 15.0;
    assert ((15.0 + 25.0) * 100.0 + 0.5).Floor == 4000;
    assert ((1000.0 + 40.0) * 100.0 + 0.5).Floor == 104000;
    assert ((1000.0 - 40.0) * 100.0 + 0.5).Floor == 96000;
  }
}
