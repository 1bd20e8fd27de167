# USDT-Flow handlers in Dafny

USDT-Flow is a React front end for buying and selling USDT against INR.
It has no ledger or settlement module of its own. Its logic sits in the
components' event handlers, and this project models that logic:

- the INR <-> USDT conversions and the fee quote of the trade forms;
- the combined trade form, the buy form and the sell form;
- the fee breakdown card;
- the KYC page;
- the deposit dialog with its wallet update;
- the transaction-PIN dialog;
- the admin earnings widget;
- the live rate card.

React state that a handler updates becomes the fields of a class, and each
handler is a method with `modifies` and a full post-state.

Pure computations are functions. Their properties are stated in lemmas:
- rounding bounds;
- round trips;
- fee identities;
- a wallet's ledger identity;
- the PIN lockout;
- bucket sums and nested revenue windows;
- the rate band.

Numbers are exact rationals (`real`). `toFixed(n)` is rounding half-up on
the magnitude with the sign restored. `parseFloat` of an empty field is
NaN (`JsNumber.NaN`). Props, the clock, `Math.random()` and the data store
are all parameters.

| file | module | component |
|---|---|---|
| form_values.dfy | FormValues | field text, `parseFloat`, the zero fallback for NaN, `toFixed` |
| chars.dfy | Chars | `replace(/\D/g, '')`, `toUpperCase`, `slice`, fixed-shape patterns |
| trade.dfy | Trade | conversions and `calculateFees`, shared by the three forms |
| trade_form.dfy | TradeFormState | TradeForm |
| buy_form.dfy | BuyFormState | BuyForm |
| sell_form.dfy | SellFormState | SellForm |
| fee_breakdown.dfy | FeeBreakdown | FeeBreakdown |
| kyc.dfy | Kyc | pages/KYC |
| deposit.dfy | Deposits | DepositInstructions |
| pin.dfy | Pin | PinVerification |
| earnings.dfy | Earnings | admin/EarningsWidget |
| rates.dfy | Rates | dashboard/RateDisplay |

Two shortcuts in the code are marked as such in its own text, and the model follows the code:

- KYC submission approves at once: status "approved", document URLs "verified". Nothing stays pending. src/pages/KYC.js:101 marks this "Auto-approve for testing".
- Deposits are never de-duplicated and have no minimum. The dialog announces a minimum deposit of 10 USDT (src/components/DepositInstructions.js:187), but `handleDepositSubmit` (src/components/DepositInstructions.js:27-70) never checks it. Each report is stored as confirmed, which src/components/DepositInstructions.js:39 marks "Auto-confirm for demo", and is credited in full, and `DuplicateReportCreditsTwice` states the consequence.

Three more behaviours of the code are easy to misread, and the model keeps them as written:

- The month window starts on the first of the month that contains the day a week ago. It does not start on the first of the current month, because `now` was already moved back seven days (`MonthWindowStartsInPreviousMonth`).
- The chart is `Object.values(dailyData).slice(-7)` over a list fetched newest first. It therefore shows the seven OLDEST days, in first-seen order (`ChartIsLastDays`).
- The Aadhar input has `maxLength={12}`, and the browser applies it before the digit filter runs. A number pasted in the placeholder's grouping, "1234 5678 9012", therefore keeps only ten digits and fails validation (`PastedGroupedAadhar`).

## Model

| member | source | states |
|---|---|---|
| FormValues.ParseFloat | src/components/trade/TradeForm.js:65 | an empty field parses to NaN, a number to its own value |
| FormValues.OrZero | src/components/trade/TradeForm.js:65 | the zero fallback is 0 for NaN and the value otherwise |
| FormValues.AddTo | src/components/trade/TradeForm.js:104-106 | adding to NaN stays NaN, adding to a number adds |
| FormValues.Exceeds | src/components/trade/TradeForm.js:306 | `a > b` with a possibly-NaN left side: false for NaN, the comparison otherwise |
| FormValues.HalfUpCents | src/components/trade/TradeForm.js:60 | half-up rounding of a non-negative value is the one value with whole hundredths in (x - 0.005, x + 0.005], so a tie rounds up; it is non-negative |
| FormValues.HalfUpMicros | src/components/trade/TradeForm.js:58 | half-up rounding of a non-negative value is the one value with whole millionths in (x - 0.0000005, x + 0.0000005], so a tie rounds up; it is non-negative |
| FormValues.ToFixed2 | src/components/trade/TradeForm.js:60 | `toFixed(2)` moves a value by at most 0.005 and keeps non-negative values non-negative |
| FormValues.ToFixed6 | src/components/trade/TradeForm.js:58 | `toFixed(6)` moves a value by at most 0.0000005 |
| FormValues.ToFixed6IsMicros | src/components/trade/TradeForm.js:58 | every `toFixed(6)` result has a whole number of millionths |
| FormValues.ToFixed2IsCents | src/components/trade/TradeForm.js:60 | every `toFixed(2)` result has a whole number of hundredths |
| FormValues.ToFixed2OfCents | src/components/trade/FeeBreakdown.js:11 | a value with two decimals is left unchanged by `toFixed(2)` |
| FormValues.ToFixed2OfCentsSum | src/components/trade/FeeBreakdown.js:11 | the sum of two two-decimal values rounds to itself |
| FormValues.ToFixed2Monotone | src/components/dashboard/RateDisplay.js:32 | `toFixed(2)` is monotone, across zero too |
| Chars.KeepDigits | src/pages/KYC.js:235 | `replace(/\D/g, '')` is a subsequence of the input made of digits only, with each digit's count kept: the typed digits in their order |
| Chars.KeepDigitsAppend | src/pages/KYC.js:235 | filtering a concatenation concatenates the filtered parts, so the filter keeps the input's order |
| Chars.KeepDigitsOfDigits | src/components/security/PinVerification.js:78 | a string of digits passes the filter unchanged |
| Chars.UpperChar | src/pages/KYC.js:250 | upper-casing maps each lower-case letter to its own capital (code point - 32), leaves other characters alone and leaves no lower-case letter |
| Chars.Upper | src/pages/KYC.js:250 | `toUpperCase` keeps the length, maps each position and leaves no lower-case letter |
| Chars.Take | src/pages/KYC.js:235 | `slice(0, n)` has length min(len, n) and is a prefix of the input |
| Chars.MatchesIff | src/pages/KYC.js:59 | an anchored fixed-shape pattern matches iff the lengths agree and every position is in its class |
| Trade.InrToUsdt | src/components/trade/TradeForm.js:58 | the USDT shown has six decimals, is within 0.0000005 of INR / rate, and is non-negative for non-negative INR |
| Trade.UsdtToInr | src/components/trade/TradeForm.js:60 | the INR shown is within 0.005 of USDT x rate and has two decimals |
| Trade.ConversionRoundTrip | src/components/trade/TradeForm.js:57-61 | INR -> USDT -> INR loses at most 0.01 INR for any rate up to 10000 |
| Trade.RoundTripBack | src/components/trade/TradeForm.js:60 | converting back any USDT amount within the 6-decimal error of INR / rate lands within 0.01 of the INR |
| Trade.RoundTripError | src/components/trade/TradeForm.js:57-61 | the two rounding errors of the round trip add up to at most 0.01 INR for a rate up to 10000 |
| Trade.FormFees | src/components/trade/TradeForm.js:82-89 | platform fee = 1.5 % of the amount, network fee 25 iff the amount is positive (else 0), total = their sum |
| Trade.FormFeesBounds | src/components/trade/TradeForm.js:84-86 | for a non-negative amount the fees are non-negative, at least 1.5 %, and above 25 for a positive amount |
| Trade.FormNet | src/components/trade/TradeForm.js:104-106 | a buy adds the total fee and a sell subtracts it; an empty INR field gives NaN |
| Trade.QuoteFor | src/components/trade/TradeForm.js:103-115 | a request carries the current rate, the fees of the INR amount (0 when empty) and the net of the unguarded `parseFloat` |
| Trade.QuoteNetOrdering | src/components/trade/TradeForm.js:104-106 | for a non-negative amount a buy nets at least the amount, a sell at most, and they differ by twice the fees |
| TradeFormState.Movement | src/components/trade/TradeForm.js:34 | a transaction of type "buy" adds its USDT to the balance; any other type, sell, unknown or missing, subtracts it |
| TradeFormState.NetFlow | src/components/trade/TradeForm.js:33-35 | the `reduce` over the history, left to right from 0; its laws are NetFlowAppend and AppendMovesBalance |
| TradeFormState.Disabled | src/components/trade/TradeForm.js:300-308 | the button's `disabled` expression, field by field; EnabledImpliesSubmittable relates it to the submit guard |
| TradeFormState.SubmitBlocked | src/components/trade/TradeForm.js:95-97 | on the sell tab, the USDT amount with NaN read as 0 exceeds the balance |
| TradeFormState.NetFlowAppend | src/components/trade/TradeForm.js:33-35 | the balance fold distributes over concatenation |
| TradeFormState.AppendMovesBalance | src/components/trade/TradeForm.js:33-36 | recording a buy never lowers the balance and recording any other type never raises it |
| TradeFormState.DerivedBalance | src/components/trade/TradeForm.js:36 | the balance is the net flow clamped at 0 |
| TradeFormState.EnabledImpliesSubmittable | src/components/trade/TradeForm.js:300-308 | an enabled button means every required field is set and `handleSubmit`'s balance guard passes |
| TradeFormState.TradeForm.constructor | src/components/trade/TradeForm.js:14-24 | the initial tab, the empty form, a zero balance and no notice |
| TradeFormState.TradeForm.LoadBalance | src/components/trade/TradeForm.js:30-40 | the balance becomes the clamped net flow of the loaded transactions |
| TradeFormState.TradeForm.ApplyQuickAmount | src/components/trade/TradeForm.js:43-51 | a non-zero quick amount sets INR and the derived USDT; zero changes nothing |
| TradeFormState.TradeForm.HandleInputChange | src/components/trade/TradeForm.js:53-74 | the edited field is stored; a non-empty amount edit derives the other amount; on the sell tab a USDT edit sets the notice iff it exceeds the balance |
| TradeFormState.TradeForm.HandleTabChange | src/components/trade/TradeForm.js:76-80 | switching tab sets the type, clears both amounts and the notice and keeps the rest |
| TradeFormState.TradeForm.HandleSubmit | src/components/trade/TradeForm.js:91-116 | nothing is sent iff a sell exceeds the balance (then the notice is set); otherwise the request is the form plus the quote |
| TradeFormState.TradeForm.SubmitDisabled | src/components/trade/TradeForm.js:300-308 | the button's `disabled` expression on the form's current tab, data, balance and notice |
| BuyFormState.Disabled | src/components/trade/BuyForm.js:176-182 | the button's `disabled` expression; EnabledRequestIsPriced states what an enabled button submits |
| BuyFormState.EnabledRequestIsPriced | src/components/trade/BuyForm.js:176-182 | an enabled buy button means a numeric net equal to amount + fees, at least the amount |
| BuyFormState.BuyForm.constructor | src/components/trade/BuyForm.js:11-17 | the empty form |
| BuyFormState.BuyForm.ApplyQuickAmount | src/components/trade/BuyForm.js:19-27 | a non-zero quick amount sets INR and the derived USDT; zero changes nothing |
| BuyFormState.BuyForm.HandleInputChange | src/components/trade/BuyForm.js:29-39 | the edited field is stored and a non-empty amount edit derives the other amount |
| BuyFormState.BuyForm.HandleSubmit | src/components/trade/BuyForm.js:50-63 | the request carries the form, the rate, the form fees and amount + total fee |
| BuyFormState.BuyForm.SubmitDisabled | src/components/trade/BuyForm.js:176-182 | the button's `disabled` expression on the form's current data |
| SellFormState.Disabled | src/components/trade/SellForm.js:172-178 | the button's `disabled` expression; EnabledImpliesSubmittable relates it to the submit guard |
| SellFormState.SubmitBlocked | src/components/trade/SellForm.js:58-59 | the USDT amount with NaN read as 0 exceeds the wallet balance |
| SellFormState.EnabledImpliesSubmittable | src/components/trade/SellForm.js:172-178 | an enabled sell button means a USDT amount within the balance, which `handleSubmit` accepts |
| SellFormState.SellForm.constructor | src/components/trade/SellForm.js:12-18 | the empty form with the platform wallet as exchange and no notice |
| SellFormState.SellForm.HandleInputChange | src/components/trade/SellForm.js:20-44 | a non-empty amount edit derives the other amount and sets the notice iff the USDT exceeds the balance; other edits keep the notice |
| SellFormState.SellForm.HandleSubmit | src/components/trade/SellForm.js:55-76 | nothing is sent iff the USDT exceeds the balance (then the notice is set); otherwise a sell quote from the platform wallet |
| SellFormState.SellForm.SubmitDisabled | src/components/trade/SellForm.js:172-178 | the button's `disabled` expression on the form's current data and notice |
| FeeBreakdown.PlatformFee | src/components/trade/FeeBreakdown.js:9 | the displayed platform fee is within 0.005 of 1.5 %, has two decimals, and is 0 for a zero amount |
| FeeBreakdown.Compute | src/components/trade/FeeBreakdown.js:9-14 | every figure on the card has two decimals; the total and the net are within 0.005 of the sums they round |
| FeeBreakdown.TotalIsSumOfParts | src/components/trade/FeeBreakdown.js:9-11 | the rounded total is exactly platform + network fee; the network fee is 25 iff the amount is positive |
| FeeBreakdown.NetAmountMeaning | src/components/trade/FeeBreakdown.js:12-14 | the net shown is amount +/- total, exact for a two-decimal amount and within 0.005 otherwise |
| FeeBreakdown.NetOrdering | src/components/trade/FeeBreakdown.js:12-14 | for a non-negative amount, buy net >= amount >= sell net |
| FeeBreakdown.AgreesWithFormFees | src/components/trade/FeeBreakdown.js:9-11 | the card's total is within 0.005 of the forms' unrounded total |
| FeeBreakdown.ThousandRupees | src/components/trade/FeeBreakdown.js:9-14 | 1000 INR gives 15 + 25 = 40, buy net 1040 and sell net 960 |
| Kyc.ValidAadhar | src/pages/KYC.js:54 | exactly twelve digits; ValidAadharIsPattern ties it to the regular expression |
| Kyc.ValidPan | src/pages/KYC.js:59 | five capitals, four digits, one capital; ValidPanIsPattern ties it to the regular expression |
| Kyc.AgeYears | src/pages/KYC.js:66 | whole Julian years elapsed, rounded down; UnderageIff restates the age test in milliseconds |
| Kyc.Underage | src/pages/KYC.js:64-69 | the age test, only for a non-empty and parseable date of birth |
| Kyc.AllFieldsValid | src/pages/KYC.js:51-80 | all five checks pass; CollectErrors reports an empty error set exactly then |
| Kyc.ShowsForm | src/pages/KYC.js:191 | no record, or a rejected or pending one; ViewsForStatus relates it to the other views |
| Kyc.ShowsApprovedCard | src/pages/KYC.js:291 | the approved card shows for a stored record with status "approved" |
| Kyc.ShowsReviewCard | src/pages/KYC.js:305 | the review card shows for a stored record with status "under_review" |
| Kyc.ValidAadharIsPattern | src/pages/KYC.js:54 | the Aadhar check is exactly the anchored match of `^\d{12}$` |
| Kyc.ValidPanIsPattern | src/pages/KYC.js:59 | the PAN check is exactly the anchored match of `^[A-Z]{5}[0-9]{4}[A-Z]{1}$` |
| Kyc.FormatExamples | src/pages/KYC.js:54-61 | "12345" and "abcde1234f" are refused; "123456789012" and "ABCDE1234F" pass |
| Kyc.SanitizeAadhar | src/pages/KYC.js:235-237 | the browser keeps the first twelve characters of an edit (`maxLength`); the field then holds the digits among them, in order and nothing else |
| Kyc.SanitizePan | src/pages/KYC.js:250 | the PAN field has no lower-case letter and is the first min(10, len) characters upper-cased |
| Kyc.SanitizedAadharValid | src/pages/KYC.js:235-237 | the filtered Aadhar passes validation iff the edit has at least twelve characters and the first twelve are all digits |
| Kyc.PastedGroupedAadhar | src/pages/KYC.js:235-237 | pasting "1234 5678 9012", the placeholder's grouping, leaves a field that fails validation |
| Kyc.SanitizersIdempotent | src/pages/KYC.js:250 | filtering an already-filtered Aadhar or PAN changes nothing |
| Kyc.UnderageIff | src/pages/KYC.js:66-67 | age < 18 iff less than 18 Julian years of 365.25 days have elapsed |
| Kyc.CollectErrors | src/pages/KYC.js:51-80 | each field is in the error set iff its own check fails; the set is empty iff all checks pass |
| Kyc.ValidationExamples | src/pages/KYC.js:50-84 | a five-digit Aadhar is reported; a well-formed form has no errors |
| Kyc.StatusBadge | src/pages/KYC.js:119-127 | each known status gets its badge; anything else falls back to Pending |
| Kyc.ViewsForStatus | src/pages/KYC.js:191 | with no record or a known status exactly one view shows; an unknown status shows none; the form shows iff there is no record or it is pending or rejected |
| Kyc.Approved | src/pages/KYC.js:96-108 | the stored record is approved with "verified" documents; an update keeps the id, a create takes the new one; the form is hidden afterwards |
| Kyc.KycPage.constructor | src/pages/KYC.js:14-24 | no record, empty form, no errors, loading |
| Kyc.KycPage.LoadKycStatus | src/pages/KYC.js:30-48 | the first record, if any, becomes the status and fills the form; loading ends |
| Kyc.KycPage.HandleFieldChange | src/pages/KYC.js:207-266 | Aadhar edits are cut to twelve characters and filtered to digits, PAN edits upper-cased and cut to ten; the other fields store the text as typed |
| Kyc.KycPage.ValidateForm | src/pages/KYC.js:50-84 | stores the error set; returns true iff it is empty iff every field is valid |
| Kyc.KycPage.HandleSubmit | src/pages/KYC.js:86-117 | an invalid form writes nothing but the per-field error set; a valid saved form is approved and reloaded, which ends loading; a failed save keeps the old status; errors are cleared whenever the form is valid |
| Deposits.OrZeroField | src/components/DepositInstructions.js:50 | a missing total reads as 0 |
| Deposits.Credit | src/components/DepositInstructions.js:46-51 | the balance and total deposited grow by the amount; withdrawals, id and address are kept |
| Deposits.OpenWallet | src/components/DepositInstructions.js:52-58 | a first deposit opens a wallet with that balance and total, nothing withdrawn, at the platform address |
| Deposits.Consistent | src/components/DepositInstructions.js:49-56 | balance = deposited - withdrawn, with missing totals read as 0 |
| Deposits.CreditAll | src/components/DepositInstructions.js:46-51 | successive reports credited to one wallet; CreditAllAddsSum states the result |
| Deposits.CreditKeepsConsistent | src/components/DepositInstructions.js:48-51 | a credit keeps balance = deposited - withdrawn |
| Deposits.OpenWalletConsistent | src/components/DepositInstructions.js:53-58 | a new wallet satisfies balance = deposited - withdrawn |
| Deposits.CreditKeepsDiscrepancy | src/components/DepositInstructions.js:48-51 | a credit leaves any existing ledger discrepancy unchanged |
| Deposits.CreditAllAddsSum | src/components/DepositInstructions.js:27-70 | a run of deposits adds exactly their sum to balance and total deposited and leaves withdrawals alone |
| Deposits.DuplicateReportCreditsTwice | src/components/DepositInstructions.js:46-51 | reporting the same transfer twice credits it twice |
| Deposits.DepositInstructions.constructor | src/components/DepositInstructions.js:12-19 | the form is hidden and empty; the store's contents are given as parameters |
| Deposits.DepositInstructions.SetShowDepositForm | src/components/DepositInstructions.js:118 | the form is shown or hidden as asked |
| Deposits.DepositInstructions.HandleEdit | src/components/DepositInstructions.js:137 | only the edited input changes |
| Deposits.DepositInstructions.HandleDepositSubmit | src/components/DepositInstructions.js:27-70 | a stored report appends a confirmed TRC20 record to the platform address; a stored wallet write credits the first wallet or opens one, then the form is reset and hidden; a failed deposit write changes nothing; a failed wallet write leaves the confirmed deposit uncredited and the form open and filled; consistent wallets stay consistent |
| Pin.PinInput | src/components/security/PinVerification.js:75-78 | the field holds at most six digits: the digits among the first six characters typed, in their order and each as often as typed |
| Pin.PinInputOfDigits | src/components/security/PinVerification.js:78 | typing up to six digits stores them exactly |
| Pin.PinVerification.constructor | src/components/security/PinVerification.js:9-12 | empty PIN, no error, not loading, zero attempts |
| Pin.PinVerification.Locked | src/components/security/PinVerification.js:81 | the PIN field is disabled once three attempts are used |
| Pin.PinVerification.SubmitDisabled | src/components/security/PinVerification.js:111 | the Verify button is disabled while verifying or once locked |
| Pin.PinVerification.OnPinChange | src/components/security/PinVerification.js:78-81 | an unlocked field stores the filtered input; a locked one ignores it |
| Pin.PinVerification.HandleSubmit | src/components/security/PinVerification.js:14-44 | verified iff at least four digits, fewer than three attempts and a match; short and locked attempts change nothing but the message; a mismatch counts an attempt and reports 3 - attempts - 1 remaining |
| Pin.PinVerification.HandleClose | src/components/security/PinVerification.js:46-50 | closing clears the PIN, the error and the attempt count |
| Pin.LockoutScenario | src/components/security/PinVerification.js:23-40 | three wrong PINs report 2 then 0 remaining, after which the correct PIN cannot be entered or verified |
| Earnings.Buckets | src/components/admin/EarningsWidget.js:46-50 | `dailyData` after a list; KeysMatchBuckets, BucketIsDaySum and BucketsSumToTotals state what it holds |
| Earnings.Keys | src/components/admin/EarningsWidget.js:46-48 | the insertion order of `dailyData`: each date key where it first occurs; KeysMatchBuckets states it has no repeats and matches the buckets |
| Earnings.Values | src/components/admin/EarningsWidget.js:65 | `Object.values`: one bucket per key, in key order |
| Earnings.LastN | src/components/admin/EarningsWidget.js:65 | `slice(-n)` is the suffix of length min(len, n) |
| Earnings.ChartOf | src/components/admin/EarningsWidget.js:65 | `Object.values(dailyData).slice(-7)`; ChartIsLastDays and ChartDaysDistinct state what it shows |
| Earnings.Step | src/components/admin/EarningsWidget.js:40-54 | one `forEach` iteration on the six accumulators |
| Earnings.Aggregate | src/components/admin/EarningsWidget.js:39-55 | the iterations folded over the list; AggregateMeaning gives each accumulator independently and Accumulate proves the loop equal to it |
| Earnings.Fee | src/components/admin/EarningsWidget.js:43 | the recorded fee when there is one, else 1.5 % of the amount + 25 |
| Earnings.FeeBounds | src/components/admin/EarningsWidget.js:43 | a well-formed transaction's fee is non-negative, and a fallback fee is at least 25 |
| Earnings.KeysMatchBuckets | src/components/admin/EarningsWidget.js:46-48 | the key order has no duplicates, holds exactly the keys of `dailyData`, and each bucket carries its own key |
| Earnings.BucketIsDaySum | src/components/admin/EarningsWidget.js:46-50 | a day's bucket holds exactly the fees and volume of that day's transactions; there is no bucket iff there is no such transaction |
| Earnings.BucketsSumToTotals | src/components/admin/EarningsWidget.js:39-55 | the buckets partition the list: their earnings sum to all fees and their volumes to the total volume |
| Earnings.WindowsNest | src/components/admin/EarningsWidget.js:52-54 | a later threshold never collects more fees, and no window collects more than all fees |
| Earnings.LastValues | src/components/admin/EarningsWidget.js:65 | the last n values are the buckets of the last n keys |
| Earnings.ChartIsLastDays | src/components/admin/EarningsWidget.js:65 | the chart is the buckets of the last min(7, #days) date keys in first-seen order |
| Earnings.ChartDaysDistinct | src/components/admin/EarningsWidget.js:65 | every chart entry is a stored day and no day appears twice |
| Earnings.DayOfMonth | src/components/admin/EarningsWidget.js:30 | the day of the month of a day count is between 1 and 31 |
| Earnings.DayOfMonthExample | src/components/admin/EarningsWidget.js:30 | 2025-09-26 is the 26th |
| Earnings.LeapDayExample | src/components/admin/EarningsWidget.js:30 | 2024-02-29 is the 29th |
| Earnings.ComputeThresholds | src/components/admin/EarningsWidget.js:27-30 | with `now` mutated step by step: month start <= week start = today's midnight - 7 days <= now < next midnight; all at midnight; month start less than 31 days before week start |
| Earnings.ThresholdsAt | src/components/admin/EarningsWidget.js:27-30 | the same ordering and alignment, for the thresholds as a function of the clock |
| Earnings.MonthWindowStartsInPreviousMonth | src/components/admin/EarningsWidget.js:29-30 | on 2025-10-03 the month window starts on 2025-09-01 |
| Earnings.AggregateMeaning | src/components/admin/EarningsWidget.js:39-55 | the fold yields the fees since each threshold, the volume, the day buckets and the first-seen key order |
| Earnings.Accumulate | src/components/admin/EarningsWidget.js:32-55 | the `forEach` loop computes that fold |
| Earnings.LoadEarnings | src/components/admin/EarningsWidget.js:23-66 | the summary holds the fees since today, week and month start, the count and the volume; the chart is that of the list |
| Earnings.SummaryWindowsOrdered | src/components/admin/EarningsWidget.js:52-54 | with well-formed fees, 0 <= today <= week <= month <= all fees |
| Rates.ChangeOf | src/components/dashboard/RateDisplay.js:27 | the random move lies in [-0.15, 0.15) and is positive iff the draw exceeds 0.5 |
| Rates.Clamp | src/components/dashboard/RateDisplay.js:28 | the clamp lands in [87.5, 89.5], is the identity inside the band and the nearer bound outside it |
| Rates.Initial | src/components/dashboard/RateDisplay.js:8-13 | the state at mount: 88.45, the mount time, trend up and 0.45 %; InitialInRange states it lies in the band |
| Rates.Tick | src/components/dashboard/RateDisplay.js:26-37 | the stored rate is in the band with two decimals and within 0.005 of the clamped rate; the trend is up iff the change is positive; the percent is non-negative and within 0.005 of the relative move |
| Rates.Refreshes | src/components/dashboard/RateDisplay.js:16-37 | from a rate in the band every refresh is defined and the rate stays in the band |
| Rates.RoundedRateInRange | src/components/dashboard/RateDisplay.js:32 | rounding a rate in the band keeps it in the band |
| Rates.AbsOfRatio | src/components/dashboard/RateDisplay.js:35 | the step `Tick` uses for its percent bound: the absolute value of the relative move equals the absolute move divided by the previous rate |
| Rates.InitialInRange | src/components/dashboard/RateDisplay.js:8-13 | the initial rate 88.45 lies in the band with two decimals |
| Rates.AlwaysInRange | src/components/dashboard/RateDisplay.js:8-37 | the card never holds a rate outside the band, however many refreshes run |
| Rates.ClampMovesNoFurther | src/components/dashboard/RateDisplay.js:28 | from a rate in the band, clamping never moves further than the change |
| Rates.TickMovesLittle | src/components/dashboard/RateDisplay.js:27-32 | one refresh moves the rate by at most 0.15 before rounding and at most 0.155 after |
| Rates.TrendAtCeiling | src/components/dashboard/RateDisplay.js:28-35 | at the ceiling a positive change reports "up" while the rate and percent stay put |

## Left out

- Persistence and network: `base44` reads, writes and `auth.me()` are not modelled. Records loaded from the store are parameters, and a write is a value in the class or a `saved` flag. A `catch` that only logs is modelled by the flags that say which writes succeeded: KYC's `saved`, and the deposit dialog's `depositStored` and `walletStored`.
- Presentation: the JSX, the message texts (KYC messages are `Kyc.Message`, balance notices `BalanceNotice`), icons, `alert`, toasts and `onVerify`/`onClose` callbacks are not modelled.
- Timers and randomness: `setTimeout`, `setInterval`, `Date`/`new Date()` and `Math.random()` are parameters. The PIN dialog's 500 ms delay and the rate card's 30 s interval and loading flag are not modelled.
- Floating point: amounts are exact rationals. IEEE-754 rounding of `parseFloat` and `toFixed` is not modelled, so `toFixed` ties round half-up exactly.
- Time zones: times are local wall-clock milliseconds, so local midnight is a multiple of a day; daylight-saving shifts and `toLocaleDateString` formatting are not modelled (a date key is an opaque string).
- Object key order: `Object.values(dailyData)` lists keys in insertion order, as modelled; JavaScript's rule that integer-like keys come first is not modelled, since locale date strings are not integers.
- Upper-casing covers ASCII letters only; Unicode case mapping is not modelled.
- String lengths count Unicode scalar values (`|s|`), while JavaScript's `.length` and `slice` count UTF-16 code units. The KYC name and address length checks (src/pages/KYC.js:73, 78) and the PAN `slice(0, 10)` (src/pages/KYC.js:250) therefore differ for characters outside the Basic Multilingual Plane. In JavaScript such a character counts twice, and `slice` can split it.
- The PIN the dialog checks against is the parameter `expectedPin` (the code hard-codes a demo PIN).
- The revenue split and the other derived figures of the earnings widget are display-only arithmetic and are not modelled.
- Clipboard copy and the "copied" flag of the deposit dialog are not modelled.
- Deposits.DepositInstructions.HandleDepositSubmit: requires a filled-in form. The inputs carry HTML `required` with `type="number"`, so the browser never submits an empty amount, hash or sender.
- Rates.Tick: requires a positive previous rate. Division by zero cannot arise from the initial state, because every reachable rate is in the band (`Rates.AlwaysInRange`).
- The trade forms' conversion functions require a positive `currentRate`. The code never checks the rate prop, and a zero rate would divide by zero.
- The PIN dialog file as stored lacks the closing `};` of `handleClose` and has a stray line in its place (src/components/security/PinVerification.js:51). The model reads it as the evidently intended closed function.
