/**
 * The combined buy/sell form (TradeForm component). Its React state
 * (`activeTab`, `formData`, `usdtBalance`, `balanceError`) becomes the
 * fields of a class; each handler is a method that updates them. The
 * `currentRate`, `isProcessing` and `quickAmount` props are parameters.
 */
module TradeFormState {
  import opened FormValues
  import opened Trade

  /** `formData` of the form; `kind` is the `type` field. */
  datatype TradeData = TradeData(
    kind: Side,
    amountInr: Text,
    amountUsdt: Text,
    exchange: string,
    bankAccount: string,
    exchangeWallet: string)

  /** One `handleInputChange(field, value)` call, by field. */
  datatype Edit =
    | EditInr(inr: Text)
    | EditUsdt(usdt: Text)
    | EditExchange(exchange: string)
    | EditBank(bank: string)
    | EditWallet(wallet: string)

  /** What `onSubmit` receives: the form data plus the rate and fee quote. */
  datatype TradeRequest = TradeRequest(data: TradeData, quote: Quote)

  /**
   * A stored transaction, as far as `loadBalance` reads it: its `type` as
   * stored ("buy", "sell", or anything else, the empty string standing for a
   * missing one) and its USDT amount.
   */
  datatype HistoryTx = HistoryTx(kind: string, amountUsdt: real)

  /** The signed USDT movement of one transaction: "buy" adds, every other type subtracts. */
  function Movement(tx: HistoryTx): real {
    if tx.kind == "buy" then tx.amountUsdt else -tx.amountUsdt
  }

  /** `transactions.reduce((sum, tx) => sum + movement(tx), 0)`, folded left to right. */
  function NetFlow(txs: seq<HistoryTx>): real
    decreases |txs|
  {
    if txs == [] then 0.0 else NetFlow(txs[..|txs| - 1]) + Movement(txs[|txs| - 1])
  }

  /** The fold distributes over concatenation of transaction lists. */
  lemma {:induction false} NetFlowAppend(a: seq<HistoryTx>, b: seq<HistoryTx>)
    ensures NetFlow(a + b) == NetFlow(a) + NetFlow(b)
    decreases |b|
  {
    if b == [] {
      assert a + b == a;
    } else {
      var b' := b[..|b| - 1];
      assert (a + b)[..|a + b| - 1] == a + b';
      NetFlowAppend(a, b');
    }
  }

  /**
   * Recording a buy never lowers the derived balance; recording a
   * transaction of any other type, a sell or an unknown one, never raises it.
   */
  lemma AppendMovesBalance(txs: seq<HistoryTx>, tx: HistoryTx)
    requires tx.amountUsdt >= 0.0
    ensures tx.kind == "buy" ==> DerivedBalance(txs + [tx]) >= DerivedBalance(txs)
    ensures tx.kind != "buy" ==> DerivedBalance(txs + [tx]) <= DerivedBalance(txs)
  {
    NetFlowAppend(txs, [tx]);
    assert [tx][..0] == [];
  }

  /** `Math.max(0, balance)`: the balance shown and checked against on the sell tab. */
  function DerivedBalance(txs: seq<HistoryTx>): (b: real)
    ensures b >= 0.0
    ensures b >= NetFlow(txs)
    ensures NetFlow(txs) >= 0.0 ==> b == NetFlow(txs)
    ensures NetFlow(txs) < 0.0 ==> b == 0.0
  {
    Max(0.0, NetFlow(txs))
  }

  /**
   * The submit button's `disabled` expression. `requested` is
   * `parseFloat(formData.amount_usdt)`, so an empty USDT field never
   * disables the button by itself.
   */
  predicate Disabled(isProcessing: bool, tab: Side, data: TradeData, balance: real, notice: BalanceNotice) {
    || isProcessing
    || data.amountInr.Blank?
    || data.exchange == ""
    || data.bankAccount == ""
    || data.exchangeWallet == ""
    || (tab == Sell && Exceeds(ParseFloat(data.amountUsdt), balance))
    || notice != NoNotice
  }

  /** The sell-side guard of `handleSubmit`: `(parseFloat(amount_usdt) || 0) > usdtBalance`. */
  predicate SubmitBlocked(tab: Side, data: TradeData, balance: real) {
    tab == Sell && OrZero(ParseFloat(data.amountUsdt)) > balance
  }

  /**
   * An enabled button only submits requests that `handleSubmit` lets
   * through: the button's check and the handler's check agree once the
   * balance is non-negative. Enabled also means every required field is set.
   */
  lemma EnabledImpliesSubmittable(isProcessing: bool, tab: Side, data: TradeData, balance: real, notice: BalanceNotice)
    requires balance >= 0.0
    requires !Disabled(isProcessing, tab, data, balance, notice)
    ensures !SubmitBlocked(tab, data, balance)
    ensures !isProcessing && data.amountInr.Dec? && data.exchange != "" && data.bankAccount != ""
    ensures data.exchangeWallet != "" && notice == NoNotice
    ensures tab == Sell ==> OrZero(ParseFloat(data.amountUsdt)) <= balance
  {
  }

  class TradeForm {
    var activeTab: Side
    var formData: TradeData
    var usdtBalance: real
    var balanceError: BalanceNotice

    /** The `type` field follows the active tab, and the balance is clamped at 0. */
    ghost predicate Valid()
      reads this
    {
      formData.kind == activeTab && usdtBalance >= 0.0
    }

    /** The state of a freshly mounted form. */
    constructor ()
      ensures Valid()
      ensures activeTab == Buy && usdtBalance == 0.0 && balanceError == NoNotice
      ensures formData == TradeData(Buy, Blank, Blank, "", "", "")
    {
      activeTab := Buy;
      formData := TradeData(Buy, Blank, Blank, "", "", "");
      usdtBalance := 0.0;
      balanceError := NoNotice;
    }

    /** `loadBalance` once the transaction list has arrived. */
    method LoadBalance(transactions: seq<HistoryTx>)
      requires Valid()
      modifies this`usdtBalance
      ensures Valid()
      ensures usdtBalance == DerivedBalance(transactions)
    {
      usdtBalance := DerivedBalance(transactions);
    }

    /** The effect run when `quickAmount` or `currentRate` changes. */
    method ApplyQuickAmount(quickAmount: real, rate: real)
      requires Valid() && rate > 0.0
      modifies this`formData
      ensures Valid()
      ensures quickAmount == 0.0 ==> formData == old(formData)
      ensures quickAmount != 0.0 ==>
        formData == old(formData).(amountInr := Dec(quickAmount), amountUsdt := Dec(InrToUsdt(quickAmount, rate)))
    {
      if quickAmount != 0.0 {
        formData := formData.(amountInr := Dec(quickAmount), amountUsdt := Dec(InrToUsdt(quickAmount, rate)));
      }
    }

    /**
     * `handleInputChange`: store the edited field, derive the other amount
     * from a non-empty amount edit, and on the sell tab re-check any USDT
     * edit (even an empty one) against the balance.
     */
    method HandleInputChange(edit: Edit, rate: real)
      requires Valid() && rate > 0.0
      modifies this`formData, this`balanceError
      ensures Valid()
      ensures formData.kind == old(formData.kind)
      ensures edit.EditInr? ==> formData == old(formData).(amountInr := edit.inr,
        amountUsdt := if edit.inr.Dec? then Dec(InrToUsdt(edit.inr.value, rate)) else old(formData.amountUsdt))
      ensures edit.EditUsdt? ==> formData == old(formData).(amountUsdt := edit.usdt,
        amountInr := if edit.usdt.Dec? then Dec(UsdtToInr(edit.usdt.value, rate)) else old(formData.amountInr))
      ensures edit.EditExchange? ==> formData == old(formData).(exchange := edit.exchange)
      ensures edit.EditBank? ==> formData == old(formData).(bankAccount := edit.bank)
      ensures edit.EditWallet? ==> formData == old(formData).(exchangeWallet := edit.wallet)
      ensures activeTab == Sell && edit.EditUsdt? ==>
        (balanceError == Insufficient(usdtBalance) <==> OrZero(ParseFloat(edit.usdt)) > usdtBalance)
      ensures activeTab == Sell && edit.EditUsdt? ==>
        (balanceError == NoNotice <==> OrZero(ParseFloat(edit.usdt)) <= usdtBalance)
      ensures !(activeTab == Sell && edit.EditUsdt?) ==> balanceError == old(balanceError)
    {
      var newData := formData;
      match edit {
        case EditInr(v) =>
          newData := newData.(amountInr := v);
          if v.Dec? {
            newData := newData.(amountUsdt := Dec(InrToUsdt(v.value, rate)));
          }
        case EditUsdt(v) =>
          newData := newData.(amountUsdt := v);
          if v.Dec? {
            newData := newData.(amountInr := Dec(UsdtToInr(v.value, rate)));
          }
        case EditExchange(v) =>
          newData := newData.(exchange := v);
        case EditBank(v) =>
          newData := newData.(bankAccount := v);
        case EditWallet(v) =>
          newData := newData.(exchangeWallet := v);
      }
      if activeTab == Sell && edit.EditUsdt? {
        var requestedAmount := OrZero(ParseFloat(edit.usdt));
        if requestedAmount > usdtBalance {
          balanceError := Insufficient(usdtBalance);
        } else {
          balanceError := NoNotice;
        }
      }
      formData := newData;
    }

    /** `handleTabChange`: switch side, clear both amounts and the notice, keep the rest. */
    method HandleTabChange(tab: Side)
      requires Valid()
      modifies this`activeTab, this`formData, this`balanceError
      ensures Valid()
      ensures activeTab == tab && balanceError == NoNotice
      ensures formData == old(formData).(kind := tab, amountInr := Blank, amountUsdt := Blank)
      ensures usdtBalance == old(usdtBalance)
    {
      activeTab := tab;
      formData := formData.(kind := tab, amountInr := Blank, amountUsdt := Blank);
      balanceError := NoNotice;
    }

    /**
     * `handleSubmit`: on the sell tab a request above the balance sets the
     * notice and never reaches `onSubmit`; otherwise the request carries the
     * form data, the current rate and the quote for the active tab.
     */
    method HandleSubmit(rate: real) returns (sent: Option<TradeRequest>)
      requires Valid()
      modifies this`balanceError
      ensures Valid()
      ensures sent.None? <==> SubmitBlocked(activeTab, formData, usdtBalance)
      ensures sent.None? ==> balanceError == Insufficient(usdtBalance)
      ensures sent.Some? ==> balanceError == old(balanceError)
      ensures sent.Some? ==> sent.value == TradeRequest(formData, QuoteFor(activeTab, formData.amountInr, rate))
    {
      if activeTab == Sell {
        var requestedAmount := OrZero(ParseFloat(formData.amountUsdt));
        if requestedAmount > usdtBalance {
          balanceError := Insufficient(usdtBalance);
          return None;
        }
      }
      var fees := FormFees(OrZero(ParseFloat(formData.amountInr)));
      var netAmount := FormNet(activeTab, ParseFloat(formData.amountInr), fees.totalFee);
      sent := Some(TradeRequest(formData, Quote(rate, fees, netAmount)));
    }

    /** The submit button's `disabled` state for the current `isProcessing` prop. */
    predicate SubmitDisabled(isProcessing: bool)
      reads this
    {
      Disabled(isProcessing, activeTab, formData, usdtBalance, balanceError)
    }
  }

}
