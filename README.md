# Augmint core, modelled in Dafny

A verified model of the accounting and matching core of the Augmint
stablecoin: the A-EUR token ledger, the LoanManager, the MonetarySupervisor,
the Exchange order book and the Rates table. The Solidity contracts
themselves are not part of this model. The behaviour modelled is what the
repository's JavaScript test helpers recompute and assert about each
contract call: the loan arithmetic in
`calcLoanValues` (which quotes the LoanManager code it mirrors), the balance,
supply and event deltas of `createLoan`, `repayLoan`, `collectLoan`,
`transferTest`, `transferFromTest` and `approveTest`, the legacy-token
conversion tests, the order-matching tests and `newRatesAsserts`.

Modules, leaves first:

- `Common`: addresses, the error taxonomy (`Outcome`, `Result`), balances as
  `map<Address, nat>` and their ghost sum `Total`, and `Moved`, a plain
  value transfer that keeps `Total`.
- `FixedPoint`: `roundedDiv` (half up) characterised by its bounds, plus
  floor-division facts.
- `LoanMath`: repayment, loan and interest amounts, and the collection split.
- `TokenLedger`: the fee function and the class `AugmintToken`, covering
  transfer, transferFrom, approve, mint and burn.
- `Supervisor`: the class `MonetarySupervisor`, covering the loan total, the
  loan issue gate and legacy-token conversion.
- `Loans`: the class `LoanManager`, covering `newEthBackedLoan`, repayment
  through `transferAndNotify`, and `collect`.
- `Exchange`: the class `Exchange`, covering `newOrder` and `matchOrders`.
- `Rates`: the class `RatesTable`, covering `setRate` and `setMultipleRates`.

The token, supervisor, loan manager and exchange classes each keep an
invariant `Valid()` that every method preserves (the rates table needs none):
- The token supply is the sum of all balances.
- The supervisor's loan total covers every open loan, and the loan manager
  holds the collateral of every open loan.
- Every open order has something left and a positive price.

Each state-changing method states the new value of every field it may
change, through pure functions (`AfterTransfer`, `RepaidBalances`,
`CollectAll`, `CollectAllEth`, `UpdatedRates`, ...), and lemmas prove what
those functions promise.

The rate oracle (`convertFromWei`, `convertToWei`) and the exchange's
wei/token conversion at a price are not visible. They are function-typed
parameters. The current time is a parameter `now`, and the supervisor's
loan-to-deposit verdict is a boolean parameter.

Where the helper text and the contract behaviour it asserts disagree, the
model follows the asserted behaviour:
- The collection targets at `test/helpers/loanTestHelpers.js:209-211` are
  computed with non-integer division, with the rounding commented out. The
  model uses integer floor division, as the contract's unsigned arithmetic
  does.
- The fee helper's double lookup of the sender, and its clamp by string
  comparison, are reported under Findings.
- The matching tests at `test/exchangeMatching.js:33-74` fix the price a
  crossing pair trades at. With wei and tokens converted at a price in token
  units per ether, the "both fully filled" test (1 ether at 11000000 against
  10000000 tokens at 9000000) leaves no order only at the midpoint
  10000000: at the sell price the tokens are worth more than 1 ether, and at
  the buy price less. The model trades at the midpoint of the two prices.

## Model

| member | source | states |
|---|---|---|
| FixedPoint.RoundedDiv | test/helpers/loanTestHelpers.js:328-335 | the result r is the integer nearest to a / b with ties rounding up: (2r-1)b <= 2a < (2r+1)b |
| FixedPoint.RoundedDivUnique | test/helpers/loanTestHelpers.js:331-334 | any integer within those half-up bounds is the rounded quotient, so the bounds define `roundedDiv` exactly |
| FixedPoint.RoundedDivMonotone | test/helpers/loanTestHelpers.js:337-348 | half-up rounding never decreases when the dividend grows |
| LoanMath.RepaymentAmount | test/helpers/loanTestHelpers.js:326-335 | the repayment is a multiple of 100 whose cents are tokenValue * collateralRatio / 1e8 rounded half up |
| LoanMath.DiscountMultiplier | test/helpers/loanTestHelpers.js:338-344 | the multiplier is collateralRatio * discountRate / 1e6 rounded down, and at most collateralRatio when discountRate <= 100% |
| LoanMath.LoanAmount | test/helpers/loanTestHelpers.js:337-348 | the loan amount is a multiple of 100 whose cents are tokenValue * multiplier / 1e8 rounded half up |
| LoanMath.LoanAmountAtMostRepayment | test/helpers/loanTestHelpers.js:326-350 | with discountRate <= 1e6 the loan amount never exceeds the repayment amount |
| LoanMath.InterestAmount | test/helpers/loanTestHelpers.js:350 | interest + loanAmount == repaymentAmount; interest is a multiple of 100 and is not negative when discountRate <= 1e6 |
| LoanMath.TargetFeeInToken | test/helpers/loanTestHelpers.js:210-211 | the target fee is repaymentAmount * defaultingFeePt / 1e6 rounded down |
| LoanMath.TargetCollectionInToken | test/helpers/loanTestHelpers.js:209 | the target collection is exactly the repayment plus the target fee |
| LoanMath.SplitCollateral | test/helpers/loanTestHelpers.js:238-240 | released + collected == collateral; collected <= target; anything released means the full target was collected; defaultingFee <= collected and is the target fee or all that was collected |
| LoanMath.CollectionWithMonotoneOracle | test/helpers/loanTestHelpers.js:232-240 | with a monotone oracle, collected == min(collateral, target) and defaultingFee == min(targetFee, collateral) |
| Common.Moved | test/helpers/loanTestHelpers.js:107-118 | a value transfer keeps the total, debits the payer and credits the payee by exactly the amount, and changes no other account |
| TokenLedger.TransferFee | test/helpers/tokenAceTestHelper.js:159-185 | the fee is 0 when either party is exempt; otherwise it is feeMin when amount * feePt / 1e6 rounded down is below feeMin, feeMax when that is above feeMax, and the rounded-down value itself inside the band |
| TokenLedger.Decimal | test/helpers/tokenAceTestHelper.js:178-182 | the decimal string a BigNumber compares by has at least one digit, exactly one for values below 10, and only the characters 0 to 9 |
| TokenLedger.JsStringLessSnoc | test/helpers/tokenAceTestHelper.js:178-182 | JavaScript's string `<` on two equal-length strings extended by one character compares the beginnings first and the last character only when the beginnings are equal |
| TokenLedger.DecimalOrder | test/helpers/tokenAceTestHelper.js:178-182 | two numbers with the same number of digits compare as decimal strings exactly as they compare as numbers, and have equal strings exactly when equal |
| TokenLedger.HelperTransferFee | test/helpers/tokenAceTestHelper.js:159-185 | the helper's fee is 0 for an exempt sender and otherwise one of feeMin, feeMax and the rounded-down fee |
| TokenLedger.HelperFeeAgreesOnEqualDigits | test/helpers/tokenAceTestHelper.js:159-185 | when the rounded-down fee, feeMin and feeMax have the same number of digits, the helper's fee is the contract's fee for parties that share the sender's exemption |
| TokenLedger.HelperFeeMissesExemptRecipient | test/helpers/tokenAceTestHelper.js:159-166 | a 100000 transfer to an exempt account costs no fee, while the helper predicts 200 |
| TokenLedger.HelperFeeComparesDigits | test/helpers/tokenAceTestHelper.js:168-182 | with the deployed parameters the contract charges 1000 on 500000 and 6000 on 3000000, while the helper predicts 200 and 50000 |
| TokenLedger.TransferEvents | test/helpers/tokenAceTestHelper.js:237-251 | a transfer emits two events: AugmintTransfer(from, to, amount, fee, narrative), then Transfer(from, to, amount) |
| TokenLedger.AfterTransfer | test/helpers/tokenAceTestHelper.js:65-79 | a transfer keeps total supply; the sender loses amount + fee, the recipient gains amount, the fee account gains fee, and no one else changes |
| TokenLedger.AfterMint | test/helpers/loanTestHelpers.js:107-125 | a mint adds amount to the recipient and to the total, and to nothing else |
| TokenLedger.AfterBurn | test/helpers/loanTestHelpers.js:193-197 | a burn takes amount from the holder and from the total, and from nothing else |
| TokenLedger.AugmintToken.TransferWithNarrative | test/helpers/tokenAceTestHelper.js:39-80 | without amount + fee the transfer fails and changes nothing; otherwise balances follow AfterTransfer with the contract's fee, both events are logged, and supply, allowances and permissions stay the same |
| TokenLedger.AugmintToken.Transfer | test/helpers/tokenAceTestHelper.js:51-55 | the same as TransferWithNarrative with the empty narrative |
| TokenLedger.AugmintToken.Approve | test/helpers/tokenAceTestHelper.js:82-90 | the allowance becomes exactly the value whatever it was, an Approval event is logged, and balances and supply stay the same |
| TokenLedger.AugmintToken.TransferFromWithNarrative | test/helpers/tokenAceTestHelper.js:92-157 | it fails on a short allowance and then on a short balance, changing nothing; otherwise the allowance drops by amount (not by the fee), balances move as in a transfer from `from`, and the spender changes only as a party |
| TokenLedger.AugmintToken.TransferFrom | test/helpers/tokenAceTestHelper.js:109-113 | the same as TransferFromWithNarrative with the empty narrative |
| TokenLedger.AugmintToken.IssueTo | test/helpers/loanTestHelpers.js:83-89 | minting adds to the recipient and the supply and logs the transfer from the zero address with fee 0 |
| TokenLedger.AugmintToken.Burn | test/helpers/loanTestHelpers.js:193-197 | burning takes from the holder and the supply and logs the transfer to the zero address |
| Supervisor.SetAccepted | test/tokenConversion.js:38-64 | after setting, a token is accepted exactly when its new state is true; other tokens keep their state |
| Supervisor.ConvertedOldBalances | test/tokenConversion.js:88-111 | the old token's total drops by amount; with distinct parties the account pays amount + fee, the supervisor ends unchanged, the fee account gains fee, and no one else changes |
| Supervisor.MonetarySupervisor.SetAcceptedLegacyAugmintToken | test/tokenConversion.js:38-70 | a caller without StabilityBoard permission fails and changes nothing; otherwise the accepted set is updated and the event carries the token and its state |
| Supervisor.MonetarySupervisor.IssueLoan | test/helpers/loanTestHelpers.js:101-130 | a refused loan-to-deposit check fails with no change; otherwise the loan total and supply rise by the loan amount, which is minted to the borrower |
| Supervisor.MonetarySupervisor.LoanClosedNotification | test/helpers/loanTestHelpers.js:198-202 | the loan total drops by exactly the closed loan's amount |
| Supervisor.MonetarySupervisor.ConvertLegacyTokens | test/tokenConversion.js:72-124 | a token not accepted, or a short balance, fails with no change on either ledger; otherwise the old token takes amount (and any fee) from the account and burns amount, logging the transfer and the burn, the new token mints amount to the account with its event, LegacyTokenConverted is logged, allowances and fee exemptions of both tokens stay the same, and an exempt supervisor pays no fee |
| Loans.NewLoanRecord | test/helpers/loanTestHelpers.js:51-54 | a new loan is open (state 0), has the product's term and defaulting fee, matures one term after disbursement and records repayment == loan + interest |
| Loans.OpenSumAppend | test/helpers/loanTestHelpers.js:126-130 | a new open loan adds its amount and collateral to the open-loan sums |
| Loans.OpenSumClose | test/helpers/loanTestHelpers.js:198-202 | closing an open loan removes exactly its amount and collateral from the open-loan sums |
| Loans.OpenSumCoversEach | test/helpers/loanTestHelpers.js:184-186 | every open loan's amount is part of the open sum |
| Loans.RepaidBalances | test/helpers/loanTestHelpers.js:177-197 | a repayment burns the loan amount from the total; the borrower pays exactly the repayment, interest-earned gains the interest, the loan manager ends unchanged, and no one else changes |
| Loans.RepaymentEvents | test/helpers/loanTestHelpers.js:163-174 | a repayment logs six token events, the first an AugmintTransfer of the repayment from the borrower to the loan manager with fee 0 and the empty narrative, then the fee-free interest transfer and the burn |
| Loans.CollectAllDefaultsListedMatured | test/helpers/loanTestHelpers.js:205-207 | `collect(ids)` defaults exactly the listed loans that were open and matured, in any order or with repeats, and leaves every other loan as it was |
| Loans.CollectOutcomeAt | test/helpers/loanTestHelpers.js:259 | there is one outcome per listed id, and the k-th is Pass exactly when that loan is open and matured after the earlier ids were tried |
| Loans.CollectionOf | test/helpers/loanTestHelpers.js:209-240 | a collected loan's collateral is all either released or collected, and the defaulting fee is part of what was collected |
| Loans.CollectedEth | test/helpers/loanTestHelpers.js:276-292 | the loan manager pays out collected + released; the reserve gains the collected part, the borrower the released part, the total is kept, and no one else changes |
| Loans.CollectAllEth | test/helpers/loanTestHelpers.js:259-292 | over a whole batch the ETH total is kept, the loan manager pays out exactly the collateral that leaves the open loans, and no account but it, the reserve and the borrowers changes |
| Loans.CollectedEthStep | test/helpers/loanTestHelpers.js:276-292 | each further defaulted loan's collateral is still held by the loan manager, and paying it out keeps those batch promises |
| Loans.CollectEvents | test/helpers/loanTestHelpers.js:266-272 | a batch logs exactly one LoanCollected per loan it defaults, each naming a listed loan |
| Loans.CollectSingleLoan | test/helpers/loanTestHelpers.js:259-292 | `collect([id])` on a collectible loan defaults it, passes, moves its ETH as CollectedEth says and logs one LoanCollected carrying the split |
| Loans.CollectAllKeepsBorrower | test/helpers/loanTestHelpers.js:259 | collecting never changes the number of loans or who owes each one |
| Loans.CollateralHeld | test/helpers/loanTestHelpers.js:184-186 | once the open collateral sum is held, every open loan's collateral is held |
| Loans.BooksAfterNewLoan | test/helpers/loanTestHelpers.js:107-130 | disbursing a loan keeps the loan book balanced |
| Loans.BooksAfterClose | test/helpers/loanTestHelpers.js:177-202 | closing a loan keeps the book balanced when the loan total and the manager's ETH drop by what the loan held |
| Loans.LoanManager.NewEthBackedLoan | test/helpers/loanTestHelpers.js:51-131 | it fails, changing nothing, on an unknown or inactive product, missing ETH, negative interest, a loan below the minimum, or a refused loan-to-deposit check; otherwise it stores the new loan under the next id, moves the collateral to the loan manager, mints the loan amount to the borrower with its event, and raises supply and loan total by the loan amount; token allowances and fee exemptions stay the same |
| Loans.LoanManager.Disburse | test/helpers/loanTestHelpers.js:99-130 | an approved loan is appended, its collateral taken and its amount issued with its event, the book stays balanced, and token allowances and fee exemptions stay the same |
| Loans.LoanManager.ReceiveRepayment | test/helpers/loanTestHelpers.js:147-197 | the token side of a repayment leaves balances as RepaidBalances says, the supply lower by the loan amount, the log extended by RepaymentEvents, and allowances and fee exemptions as they were |
| Loans.LoanManager.Repay | test/helpers/loanTestHelpers.js:134-203 | it fails, changing nothing, on an unknown or closed loan, a wrong borrower, a wrong amount or a short balance; otherwise the loan becomes Repaid (state 1), the collateral returns to the borrower, tokens move as RepaidBalances says with RepaymentEvents logged, supply and loan total drop by the loan amount, and allowances and fee exemptions stay the same |
| Loans.LoanManager.CollectOne | test/helpers/loanTestHelpers.js:205-303 | a loan that is not collectible is skipped with no change; otherwise it becomes Defaulted (state 2), the ETH moves as CollectedEth says, the loan total drops by its amount, and the event carries the split |
| Loans.LoanManager.CollectNext | test/helpers/loanTestHelpers.js:259-292 | trying one more id of a batch keeps the loans, loan total, ETH and log where CollectAll, CollectAllEth and CollectEvents put them |
| Loans.LoanManager.Collect | test/helpers/loanTestHelpers.js:259-303 | the loans become CollectAll of the list, the outcomes are CollectOutcomes, the ETH balances become CollectAllEth (collected collateral to the reserve, the rest to each borrower), the log gains CollectEvents, and the loan total and the loan manager's ETH drop by exactly what the defaulted loans held; the token supply is untouched |
| Exchange.MatchPrice | test/exchangeMatching.js:62-74 | a crossing pair trades at a price between the two order prices, strictly between them when they differ by more than one |
| Exchange.MatchFill | test/exchangeMatching.js:33-97 | crossing prices are required; the traded wei and tokens never exceed the orders, and at least one side is filled completely, at the match price |
| Exchange.MatchIgnoresMakers | test/exchangeMatching.js:76-87 | who made the orders does not affect the match, so one maker's buy and sell orders match |
| Exchange.Reduced | test/exchangeMatching.js:43-45 | an order keeps its remainder, or leaves its side (one fewer order) when nothing remains; other orders are untouched |
| Exchange.MatchRemovals | test/exchangeMatching.js:33-74 | by the sell order's value at the match price: a smaller sell order is removed and the buy order stays; equal orders are both removed; a smaller buy order is removed and the sell order stays unless exactly used up |
| Exchange.CountsAfterMatch | test/exchangeMatching.js:43-45 | matching one buy and one sell order on an empty book reverts exactly when MatchFill does, and otherwise leaves at most one of the two orders |
| Exchange.MatchingTestsAtMidpoint | test/exchangeMatching.js:33-97 | with wei and tokens converted at the match price, the three matching tests leave (buy, sell) counts (0, 1), (1, 0) and (0, 0), and the non-crossing test reverts |
| Exchange.ReducedSideValid | test/exchangeMatching.js:43-45 | trading part of an order keeps its side of the book valid and adds no order id |
| Exchange.Exchange.NewOrder | test/exchangeMatching.js:37-38 | a zero amount or price fails with no change; otherwise the order goes on its side under a fresh id and the next id advances |
| Exchange.Exchange.MatchOrders | test/exchangeMatching.js:89-97 | a missing order or non-crossing prices fail with the book unchanged; otherwise both orders are reduced by the fill, the fill is logged, and the book loses at least one order |
| Rates.RateEventsMatch | test/helpers/ratesTestHelpers.js:20-35 | there is exactly one RateChanged event per symbol, and the i-th carries the i-th symbol and rate |
| Rates.UpdatedRatesLastWins | test/helpers/ratesTestHelpers.js:37-46 | a symbol not set again later holds its own new rate, with lastUpdated == now |
| Rates.UpdatedRatesElsewhere | test/helpers/ratesTestHelpers.js:37-43 | symbols not named keep their entries |
| Rates.UpdatedRatesDistinct | test/helpers/ratesTestHelpers.js:37-46 | with distinct symbols, each holds exactly its new rate, stamped with now |
| Rates.RatesTable.SetRate | test/helpers/ratesTestHelpers.js:17-47 | the symbol's entry becomes (newRate, now) and one RateChanged event is logged |
| Rates.RatesTable.SetMultipleRates | test/helpers/ratesTestHelpers.js:17-47 | lists of different lengths fail with no change; otherwise the table becomes UpdatedRates and the log gains RateEvents |

## Left out

- Gas: the helpers' ETH tolerances for transaction fees are not modelled, and ETH balances are exact.
- Wall-clock tolerance: `now` is a parameter, so disbursement time is exactly `now`.
- The loan-to-deposit rule: it is described only loosely in deployment comments, so the supervisor's verdict is a boolean input.
- Oracle and exchange conversion formulas: the contract sources are not part of this model, so they are function parameters. `MatchFill` converts at the midpoint of the two prices, which only the matching tests attest.
- `matchMultipleOrders`: its tests have no bodies, and its stop condition is a gas budget.
- Exchange settlement: the exchange's locking of the makers' tokens and wei, and its payouts, are not modelled. test/helpers/exchangeTestHelpers.js is not part of this model, so only the order book is modelled.
- Product management, permission grants other than StabilityBoard on the supervisor, and the permissions that guard mint, burn and `setRate`: these are deployment wiring.
- Relative order of events across contracts: each contract keeps its own log.
- Re-entrancy of `transferAndNotify`: the hook runs after the token transfer completes, and a repayment or conversion is modelled as one atomic step.
- Loans.LoanManager.Collect: a loan id that cannot be collected is skipped, and the batch goes on.
- 256-bit overflow: Dafny's integers are unbounded, so no uint256 wrap-around and no SafeMath overflow revert is modelled; the amounts in the tests are far below 2^256.
- Loans.NewLoanCheck: the revert when the loan amount exceeds the repayment amount is inferred from the contract's unsigned interest field; the test helpers never show it, and with discountRate <= 100% it cannot happen.
- TokenLedger.Decimal: BigNumber writes values of 1e21 and above in exponent notation; the model writes every value in plain decimal, which covers every fee the tests use.

## Findings

| source | as written | input that shows it | evidently intended | confidence | as-written member | corrected member |
|---|---|---|---|---|---|---|
| test/helpers/tokenAceTestHelper.js:160-163 | `getTransferFee` looks up `transfer.from` twice, and names the second result `toAllowed` | a transfer of 100000 from a plain account to a fee-exempt account, with fee 0.2%, min 200, max 50000: the helper predicts a fee of 200 | no fee when either the sender or the recipient holds NoFeeTransferContracts, as the repayment asserts show (the borrower pays exactly the repayment to the exempt loan manager) | not executed | TokenLedger.HelperFeeMissesExemptRecipient | TokenLedger.TransferFee |
| test/helpers/tokenAceTestHelper.js:168-182 | `fee < feeMin` and `fee > feeMax` compare BigNumber values, which JavaScript does through their decimal strings | with fee 0.2%, min 200, max 50000 (BigNumbers as `getParams` returns them): a transfer of 500000 has fee 1000 and "1000" < "200", so the helper predicts 200; a transfer of 3000000 has fee 6000 and "6000" > "50000", so it predicts 50000 | a numeric clamp (`lt`, `gt`), giving 1000 and 6000 | not executed | TokenLedger.HelperFeeComparesDigits | TokenLedger.TransferFee |
