/**
 * The deposit dialog (DepositInstructions component): the user reports a
 * USDT transfer to the platform address, a confirmed Deposit record is
 * written, and the user's wallet is credited, or created when there is none.
 *
 * The user's stored Deposit records and their Wallet records (the result of
 * `Wallet.filter({ created_by })`) are fields of the class.
 */
module Deposits {
  import opened FormValues

  /** The platform's TRC20 deposit address, fixed at mount. */
  const PlatformAddress: string := "TUJx9Kx8XXXXXXXXXXXXXXXXXXXXXXXXXX"

  const Network: string := "TRC20"

  /** Every reported deposit is stored as already confirmed. */
  const ConfirmedStatus: string := "confirmed"

  const Confirmations: nat := 20

  /** `depositData`: the three required inputs of the form. */
  datatype DepositForm = DepositForm(amountUsdt: Text, transactionHash: string, fromAddress: string)

  const EmptyDepositForm: DepositForm := DepositForm(Blank, "", "")

  datatype DepositRecord = DepositRecord(
    form: DepositForm,
    toAddress: string,
    network: string,
    status: string,
    confirmations: nat)

  /** A Wallet record; the two totals may be absent on a stored record. */
  datatype Wallet = Wallet(
    id: string,
    balanceUsdt: real,
    totalDeposited: Option<real>,
    totalWithdrawn: Option<real>,
    depositAddress: string)

  /** `x || 0` on an optional stored number. */
  function OrZeroField(x: Option<real>): (r: real)
    ensures x.None? ==> r == 0.0
    ensures x.Some? ==> r == x.value
  {
    match x
    case None => 0.0
    case Some(v) => v
  }

  /** The ledger identity of a wallet: balance = deposited - withdrawn. */
  predicate Consistent(w: Wallet) {
    w.balanceUsdt == OrZeroField(w.totalDeposited) - OrZeroField(w.totalWithdrawn)
  }

  /** The update of an existing wallet: balance and total deposited both grow by the amount. */
  function Credit(w: Wallet, amount: real): (c: Wallet)
    ensures c.balanceUsdt - w.balanceUsdt == amount
    ensures c.totalDeposited.Some? && c.totalDeposited.value - OrZeroField(w.totalDeposited) == amount
    ensures c.totalWithdrawn == w.totalWithdrawn
    ensures c.id == w.id && c.depositAddress == w.depositAddress
  {
    w.(balanceUsdt := w.balanceUsdt + amount, totalDeposited := Some(OrZeroField(w.totalDeposited) + amount))
  }

  /** The wallet created on a first deposit. */
  function OpenWallet(newId: string, amount: real): (w: Wallet)
    ensures w.balanceUsdt == amount && w.totalDeposited == Some(amount) && w.totalWithdrawn == Some(0.0)
    ensures w.depositAddress == PlatformAddress
  {
    Wallet(newId, amount, Some(amount), Some(0.0), PlatformAddress)
  }

  /** A credit keeps the ledger identity. */
  lemma CreditKeepsConsistent(w: Wallet, amount: real)
    ensures Consistent(w) ==> Consistent(Credit(w, amount))
  {
  }

  /** A new wallet satisfies the ledger identity. */
  lemma OpenWalletConsistent(newId: string, amount: real)
    ensures Consistent(OpenWallet(newId, amount))
  {
  }

  /** A credit to an inconsistent wallet leaves it inconsistent by the same margin. */
  lemma CreditKeepsDiscrepancy(w: Wallet, amount: real)
    ensures Credit(w, amount).balanceUsdt - OrZeroField(Credit(w, amount).totalDeposited) + OrZeroField(Credit(w, amount).totalWithdrawn)
         == w.balanceUsdt - OrZeroField(w.totalDeposited) + OrZeroField(w.totalWithdrawn)
  {
  }

  function Sum(amounts: seq<real>): real
    decreases |amounts|
  {
    if amounts == [] then 0.0 else Sum(amounts[..|amounts| - 1]) + amounts[|amounts| - 1]
  }

  /** Successive deposits on one wallet, in order. */
  function CreditAll(w: Wallet, amounts: seq<real>): Wallet
    decreases |amounts|
  {
    if amounts == [] then w else Credit(CreditAll(w, amounts[..|amounts| - 1]), amounts[|amounts| - 1])
  }

  /**
   * Nothing is de-duplicated or refused: a run of deposits adds exactly the
   * sum of their amounts to the balance and to the total deposited, and
   * leaves the withdrawals alone.
   */
  lemma {:induction false} CreditAllAddsSum(w: Wallet, amounts: seq<real>)
    ensures CreditAll(w, amounts).balanceUsdt == w.balanceUsdt + Sum(amounts)
    ensures amounts != [] ==> CreditAll(w, amounts).totalDeposited == Some(OrZeroField(w.totalDeposited) + Sum(amounts))
    ensures OrZeroField(CreditAll(w, amounts).totalDeposited) == OrZeroField(w.totalDeposited) + Sum(amounts)
    ensures CreditAll(w, amounts).totalWithdrawn == w.totalWithdrawn
    decreases |amounts|
  {
    if amounts != [] {
      CreditAllAddsSum(w, amounts[..|amounts| - 1]);
    }
  }

  /** The same report sent twice credits the wallet twice. */
  lemma DuplicateReportCreditsTwice(w: Wallet, amount: real)
    ensures CreditAll(w, [amount, amount]).balanceUsdt == w.balanceUsdt + 2.0 * amount
  {
    CreditAllAddsSum(w, [amount, amount]);
    assert [amount, amount][..1] == [amount];
    assert [amount][..0] == [];
    assert Sum([amount]) == amount;
    assert Sum([amount, amount]) == 2.0 * amount;
  }

  /** One `onChange` of the form, by input. */
  datatype Edit =
    | EditAmount(amount: Text)
    | EditHash(hash: string)
    | EditFrom(from: string)

  class DepositInstructions {
    var showDepositForm: bool
    var depositData: DepositForm
    var submitting: bool
    var deposits: seq<DepositRecord>
    var wallets: seq<Wallet>

    constructor (storedDeposits: seq<DepositRecord>, storedWallets: seq<Wallet>)
      ensures !showDepositForm && depositData == EmptyDepositForm && !submitting
      ensures deposits == storedDeposits && wallets == storedWallets
    {
      showDepositForm := false;
      depositData := EmptyDepositForm;
      submitting := false;
      deposits := storedDeposits;
      wallets := storedWallets;
    }

    /** "I've Sent USDT" and "Cancel". */
    method SetShowDepositForm(show: bool)
      modifies this`showDepositForm
      ensures showDepositForm == show
    {
      showDepositForm := show;
    }

    method HandleEdit(edit: Edit)
      modifies this`depositData
      ensures depositData == match edit
        case EditAmount(a) => old(depositData).(amountUsdt := a)
        case EditHash(h) => old(depositData).(transactionHash := h)
        case EditFrom(f) => old(depositData).(fromAddress := f)
    {
      match edit {
        case EditAmount(a) => depositData := depositData.(amountUsdt := a);
        case EditHash(h) => depositData := depositData.(transactionHash := h);
        case EditFrom(f) => depositData := depositData.(fromAddress := f);
      }
    }

    /**
     * `handleDepositSubmit`. The three inputs are `required`, so the browser
     * submits only a filled-in form. The report is stored as a confirmed
     * deposit, the first wallet is credited (or a wallet opened at `newId`),
     * and the form is reset and hidden.
     *
     * `depositStored` says whether `Deposit.create` (and the user lookup
     * before it) succeeded, `walletStored` whether the wallet write that
     * follows did. A failure only logs: the form stays open and filled, and a
     * failed wallet write leaves the confirmed deposit stored but uncredited.
     */
    method HandleDepositSubmit(newId: string, depositStored: bool, walletStored: bool)
      requires depositData.amountUsdt.Dec? && depositData.transactionHash != "" && depositData.fromAddress != ""
      modifies this
      ensures deposits == if depositStored
        then old(deposits) + [DepositRecord(old(depositData), PlatformAddress, Network, ConfirmedStatus, Confirmations)]
        else old(deposits)
      ensures depositStored && walletStored && |old(wallets)| > 0 ==>
        wallets == old(wallets)[0 := Credit(old(wallets)[0], old(depositData).amountUsdt.value)]
      ensures depositStored && walletStored && |old(wallets)| == 0 ==>
        wallets == [OpenWallet(newId, old(depositData).amountUsdt.value)]
      ensures !(depositStored && walletStored) ==> wallets == old(wallets)
      ensures (forall i :: 0 <= i < |old(wallets)| ==> Consistent(old(wallets)[i])) ==>
        forall i :: 0 <= i < |wallets| ==> Consistent(wallets[i])
      ensures depositStored && walletStored ==> !showDepositForm && depositData == EmptyDepositForm
      ensures !(depositStored && walletStored) ==> showDepositForm == old(showDepositForm) && depositData == old(depositData)
      ensures !submitting
    {
      submitting := true;
      var amount := ParseFloat(depositData.amountUsdt).value;
      if depositStored {
        deposits := deposits + [DepositRecord(depositData, PlatformAddress, Network, ConfirmedStatus, Confirmations)];
        if walletStored {
          if |wallets| > 0 {
            CreditKeepsConsistent(wallets[0], amount);
            wallets := wallets[0 := Credit(wallets[0], amount)];
          } else {
            OpenWalletConsistent(newId, amount);
            wallets := [OpenWallet(newId, amount)];
          }
          showDepositForm := false;
          depositData := EmptyDepositForm;
        }
      }
      submitting := false;
    }
  }
}
