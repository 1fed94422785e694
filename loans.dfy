/** The LoanManager: ETH-backed loans that are disbursed, repaid or
    collected (test/helpers/loanTestHelpers.js). Each loan is Open (0) until
    it is Repaid (1) or Defaulted (2); both are final. */
module Loans {
  import opened Common
  import opened LoanMath
  import opened TokenLedger
  import opened Supervisor

  datatype LoanState = Open | Repaid | Defaulted {
    /** The state's number in the contract's enum. */
    function Code(): nat {
      match this
      case Open => 0
      case Repaid => 1
      case Defaulted => 2
    }
  }

  /** A stored loan, field by field as the `loans` getter returns it. */
  datatype Loan = Loan(
    borrower: Address,
    state: LoanState,
    collateralAmount: nat,
    repaymentAmount: nat,
    loanAmount: nat,
    interestAmount: nat,
    term: nat,
    disbursementTime: nat,
    maturityTime: nat,
    defaultingFeePt: nat)

  /** Events of the loan manager. */
  datatype LoanEvent =
    | NewLoan(loanId: nat, productId: nat, borrower: Address, collateralAmount: nat, loanAmount: nat, repaymentAmount: nat)
    | LoanRepayed(loanId: nat, borrower: Address)
    | LoanCollected(loanId: nat, borrower: Address, collectedCollateral: nat, releasedCollateral: nat, defaultingFee: nat)

  /** The bookkeeping every loan keeps from disbursement on. */
  ghost predicate WellFormed(l: Loan) {
    && l.repaymentAmount == l.loanAmount + l.interestAmount
    && l.maturityTime == l.disbursementTime + l.term
  }

  /** Why `newEthBackedLoan` reverts, checked in order; Pass if it does not. */
  function NewLoanCheck(products: seq<Product>, productId: nat, ethBalance: nat, collateral: nat,
                        tokenValue: nat, ltdApproved: bool): Outcome
  {
    if productId >= |products| then Fail(NotFound)
    else
      var p := products[productId];
      if !p.isActive then Fail(InvalidState)
      else if ethBalance < collateral then Fail(InsufficientBalance)
      else if InterestAmount(tokenValue, p.collateralRatio, p.discountRate) < 0 then Fail(ArithmeticBounds)
      else if LoanAmount(tokenValue, p.collateralRatio, p.discountRate) < p.minDisbursedAmount then Fail(ArithmeticBounds)
      else if !ltdApproved then Fail(InvariantViolation)
      else Pass
  }

  /** The loan `newEthBackedLoan` stores: open, with the product's term and
      defaulting fee, maturing one term after disbursement. */
  function NewLoanRecord(borrower: Address, product: Product, collateral: nat, tokenValue: nat, now: nat): (l: Loan)
    requires InterestAmount(tokenValue, product.collateralRatio, product.discountRate) >= 0
    ensures l.state == Open && l.state.Code() == 0
    ensures l.borrower == borrower && l.collateralAmount == collateral
    ensures l.term == product.term && l.defaultingFeePt == product.defaultingFeePt
    ensures l.disbursementTime == now && l.maturityTime == now + product.term
    ensures l.repaymentAmount == RepaymentAmount(tokenValue, product.collateralRatio)
    ensures l.loanAmount == LoanAmount(tokenValue, product.collateralRatio, product.discountRate)
    ensures WellFormed(l)
  {
    var repayment := RepaymentAmount(tokenValue, product.collateralRatio);
    var loanAmount := LoanAmount(tokenValue, product.collateralRatio, product.discountRate);
    var interest := InterestAmount(tokenValue, product.collateralRatio, product.discountRate);
    Loan(borrower, Open, collateral, repayment, loanAmount, interest,
         product.term, now, now + product.term, product.defaultingFeePt)
  }

  /** Which amount of an open loan `OpenSum` adds up: its loan amount, its
      collateral, or one per loan. */
  datatype Measure = ByLoanAmount | ByCollateral | ByCount

  function Measured(l: Loan, m: Measure): nat {
    match m
    case ByLoanAmount => l.loanAmount
    case ByCollateral => l.collateralAmount
    case ByCount => 1
  }

  /** Sum of the loan amounts (or collaterals) of the open loans. */
  function OpenSum(loans: seq<Loan>, m: Measure): nat
    decreases |loans|
  {
    if |loans| == 0 then 0
    else
      var last := loans[|loans| - 1];
      OpenSum(loans[..|loans| - 1], m) + (if last.state == Open then Measured(last, m) else 0)
  }

  /** A new loan adds its amounts to the open sums. */
  lemma OpenSumAppend(loans: seq<Loan>, l: Loan, m: Measure)
    ensures OpenSum(loans + [l], m) == OpenSum(loans, m) + (if l.state == Open then Measured(l, m) else 0)
  {
    assert (loans + [l])[..|loans|] == loans;
  }

  /** Closing an open loan removes exactly its amounts from the open sums. */
  lemma {:induction false} OpenSumClose(loans: seq<Loan>, i: nat, s: LoanState, m: Measure)
    requires i < |loans| && loans[i].state == Open && s != Open
    ensures OpenSum(loans[i := loans[i].(state := s)], m) + Measured(loans[i], m) == OpenSum(loans, m)
    decreases |loans|
  {
    var closed := loans[i := loans[i].(state := s)];
    var n := |loans| - 1;
    if i < n {
      assert closed[..n] == loans[..n][i := loans[i].(state := s)];
      OpenSumClose(loans[..n], i, s, m);
    } else {
      assert closed[..n] == loans[..n];
    }
  }

  /** Why repaying `loanId` with `amount` reverts; Pass if it does not. */
  function RepayCheck(loans: seq<Loan>, loanId: nat, borrower: Address, amount: nat, borrowerBalance: nat): Outcome {
    if loanId >= |loans| then Fail(NotFound)
    else if loans[loanId].state != Open then Fail(InvalidState)
    else if loans[loanId].borrower != borrower then Fail(PermissionDenied)
    else if amount != loans[loanId].repaymentAmount then Fail(ArithmeticBounds)
    else if borrowerBalance < amount then Fail(InsufficientBalance)
    else Pass
  }

  /** Token balances after a repayment: the borrower pays the repayment
      amount to the loan manager, which passes the interest on to the
      interest-earned account and burns the loan amount. */
  function RepaidBalances(b: map<Address, nat>, borrower: Address, loanManager: Address,
                          interestEarned: Address, feeAccount: Address, l: Loan): (b': map<Address, nat>)
    requires WellFormed(l) && Bal(b, borrower) >= l.repaymentAmount
    requires loanManager != interestEarned && loanManager != feeAccount
    ensures Total(b') + l.loanAmount == Total(b)
    ensures borrower != loanManager && borrower != interestEarned && borrower != feeAccount && interestEarned != feeAccount ==>
      && Bal(b', borrower) == Bal(b, borrower) - l.repaymentAmount
      && Bal(b', interestEarned) == Bal(b, interestEarned) + l.interestAmount
      && Bal(b', loanManager) == Bal(b, loanManager)
      && Bal(b', feeAccount) == Bal(b, feeAccount)
    ensures forall a :: a != borrower && a != loanManager && a != interestEarned && a != feeAccount ==> Bal(b', a) == Bal(b, a)
  {
    var received := AfterTransfer(b, borrower, loanManager, feeAccount, l.repaymentAmount, 0);
    var paidInterest := AfterTransfer(received, loanManager, interestEarned, feeAccount, l.interestAmount, 0);
    AfterBurn(paidInterest, loanManager, l.loanAmount)
  }

  /** The token events of a repayment: the fee-free transfer of the
      repayment to the loan manager, the fee-free transfer of the interest
      to the interest-earned account, and the burn of the loan amount. */
  function RepaymentEvents(borrower: Address, loanManager: Address, interestEarned: Address, l: Loan): (es: seq<TokenEvent>)
    ensures |es| == 6
    ensures es[0] == AugmintTransfer(borrower, loanManager, l.repaymentAmount, 0, "")
    ensures es[2] == AugmintTransfer(loanManager, interestEarned, l.interestAmount, 0, "")
    ensures es[4] == AugmintTransfer(loanManager, ZeroAddress, l.loanAmount, 0, "")
  {
    TransferEvents(borrower, loanManager, l.repaymentAmount, 0, "")
      + TransferEvents(loanManager, interestEarned, l.interestAmount, 0, "")
      + TransferEvents(loanManager, ZeroAddress, l.loanAmount, 0, "")
  }

  /** A loan can be collected: it exists, is open and is past maturity. */
  predicate Collectible(loans: seq<Loan>, loanId: nat, now: nat) {
    loanId < |loans| && loans[loanId].state == Open && now > loans[loanId].maturityTime
  }

  /** The loans after one collection attempt. */
  function CollectStep(loans: seq<Loan>, loanId: nat, now: nat): seq<Loan> {
    if Collectible(loans, loanId, now) then loans[loanId := loans[loanId].(state := Defaulted)] else loans
  }

  /** The loans after `collect(loanIds)`: each id is tried in turn. */
  function CollectAll(loans: seq<Loan>, loanIds: seq<nat>, now: nat): seq<Loan>
    decreases |loanIds|
  {
    if |loanIds| == 0 then loans
    else CollectStep(CollectAll(loans, loanIds[..|loanIds| - 1], now), loanIds[|loanIds| - 1], now)
  }

  /** The outcome of one collection attempt: Pass, or why the loan is skipped. */
  function StepOutcome(loans: seq<Loan>, loanId: nat, now: nat): Outcome {
    if Collectible(loans, loanId, now) then Pass
    else Fail(if loanId >= |loans| then NotFound else InvalidState)
  }

  /** The per-loan outcomes of `collect(loanIds)`, in order. */
  function CollectOutcomes(loans: seq<Loan>, loanIds: seq<nat>, now: nat): seq<Outcome>
    decreases |loanIds|
  {
    if |loanIds| == 0 then []
    else
      var n := |loanIds| - 1;
      CollectOutcomes(loans, loanIds[..n], now) + [StepOutcome(CollectAll(loans, loanIds[..n], now), loanIds[n], now)]
  }

  /** One outcome per listed loan; the k-th is that of trying `loanIds[k]`
      on the loans the ids before it left, so it is Pass exactly when that
      loan is then open and matured. */
  lemma {:induction false} CollectOutcomeAt(loans: seq<Loan>, loanIds: seq<nat>, now: nat, k: nat)
    requires k < |loanIds|
    ensures |CollectOutcomes(loans, loanIds, now)| == |loanIds|
    ensures CollectOutcomes(loans, loanIds, now)[k] == StepOutcome(CollectAll(loans, loanIds[..k], now), loanIds[k], now)
    ensures CollectOutcomes(loans, loanIds, now)[k] == Pass <==> Collectible(CollectAll(loans, loanIds[..k], now), loanIds[k], now)
    decreases |loanIds|
  {
    var n := |loanIds| - 1;
    if k < n {
      CollectOutcomeAt(loans, loanIds[..n], now, k);
      assert loanIds[..n][..k] == loanIds[..k];
    } else {
      if n > 0 {
        CollectOutcomeAt(loans, loanIds[..n], now, n - 1);
      }
    }
  }

  /** `collect(loanIds)` defaults exactly the listed loans that were open and
      matured, whatever their order or repetition, and touches nothing else. */
  lemma {:induction false} CollectAllDefaultsListedMatured(loans: seq<Loan>, loanIds: seq<nat>, now: nat)
    ensures |CollectAll(loans, loanIds, now)| == |loans|
    ensures forall j :: 0 <= j < |loans| ==>
      CollectAll(loans, loanIds, now)[j] ==
        if j in loanIds && Collectible(loans, j, now) then loans[j].(state := Defaulted) else loans[j]
    decreases |loanIds|
  {
    if |loanIds| > 0 {
      var prefix := loanIds[..|loanIds| - 1];
      var x := loanIds[|loanIds| - 1];
      CollectAllDefaultsListedMatured(loans, prefix, now);
      assert loanIds == prefix + [x];
      forall j | 0 <= j < |loans|
        ensures CollectAll(loans, loanIds, now)[j] ==
          if j in loanIds && Collectible(loans, j, now) then loans[j].(state := Defaulted) else loans[j]
      {
        assert j in loanIds <==> j in prefix || j == x;
      }
    }
  }

  /** How collecting a loan divides its collateral, with the oracle's
      token-to-wei conversion. */
  function CollectionOf(l: Loan, convertToWei: nat -> nat): (c: Collection)
    ensures c.releasedCollateral + c.collectedCollateral == l.collateralAmount
    ensures c.defaultingFee <= c.collectedCollateral
  {
    SplitCollateral(
      l.collateralAmount,
      convertToWei(TargetCollectionInToken(l.repaymentAmount, l.defaultingFeePt)),
      convertToWei(TargetFeeInToken(l.repaymentAmount, l.defaultingFeePt)))
  }

  /** ETH balances after a collection: the loan manager pays the collected
      collateral to the reserve and releases the rest to the borrower. */
  function CollectedEth(eth: map<Address, nat>, loanManager: Address, reserve: Address, borrower: Address, c: Collection)
    : (eth': map<Address, nat>)
    requires Bal(eth, loanManager) >= c.collectedCollateral + c.releasedCollateral
    ensures Total(eth') == Total(eth)
    ensures loanManager != reserve && loanManager != borrower ==>
      Bal(eth', loanManager) == Bal(eth, loanManager) - c.collectedCollateral - c.releasedCollateral
    ensures loanManager != reserve && loanManager != borrower && reserve != borrower ==>
      && Bal(eth', reserve) == Bal(eth, reserve) + c.collectedCollateral
      && Bal(eth', borrower) == Bal(eth, borrower) + c.releasedCollateral
    ensures forall a :: a != loanManager && a != reserve && a != borrower ==> Bal(eth', a) == Bal(eth, a)
  {
    var toReserve := Moved(eth, loanManager, reserve, c.collectedCollateral);
    Moved(toReserve, loanManager, borrower, c.releasedCollateral)
  }

  /** Collecting never changes who owes a loan. */
  lemma CollectAllKeepsBorrower(loans: seq<Loan>, loanIds: seq<nat>, now: nat, j: nat)
    requires j < |CollectAll(loans, loanIds, now)|
    ensures |CollectAll(loans, loanIds, now)| == |loans|
    ensures CollectAll(loans, loanIds, now)[j].borrower == loans[j].borrower
  {
    CollectAllDefaultsListedMatured(loans, loanIds, now);
  }

  /** The accounts that borrowed a loan. */
  function Borrowers(loans: seq<Loan>): set<Address> {
    set i | 0 <= i < |loans| :: loans[i].borrower
  }

  /** Collecting one more loan keeps the balances `CollectAllEth` promises:
      the loan manager still holds the loan's collateral and pays out exactly
      that, and only the reserve and the loan's borrower receive it. */
  lemma CollectedEthStep(eth: map<Address, nat>, prev: map<Address, nat>, loanManager: Address, reserve: Address,
                         loans: seq<Loan>, before: seq<Loan>, x: nat, now: nat, convertToWei: nat -> nat)
    requires loanManager != reserve && loanManager !in Borrowers(loans)
    requires OpenSum(loans, ByCollateral) <= Bal(eth, loanManager)
    requires Collectible(before, x, now) && x < |loans| && before[x].borrower == loans[x].borrower
    requires OpenSum(before, ByCollateral) <= OpenSum(loans, ByCollateral)
    requires Bal(prev, loanManager) + OpenSum(loans, ByCollateral) == Bal(eth, loanManager) + OpenSum(before, ByCollateral)
    requires Total(prev) == Total(eth)
    requires forall a :: a != loanManager && a != reserve && a !in Borrowers(loans) ==> Bal(prev, a) == Bal(eth, a)
    ensures Bal(prev, loanManager) >= before[x].collateralAmount
    ensures var eth' := CollectedEth(prev, loanManager, reserve, before[x].borrower, CollectionOf(before[x], convertToWei));
      && Total(eth') == Total(eth)
      && OpenSum(CollectStep(before, x, now), ByCollateral) <= OpenSum(loans, ByCollateral)
      && Bal(eth', loanManager) + OpenSum(loans, ByCollateral)
         == Bal(eth, loanManager) + OpenSum(CollectStep(before, x, now), ByCollateral)
      && forall a :: a != loanManager && a != reserve && a !in Borrowers(loans) ==> Bal(eth', a) == Bal(eth, a)
  {
    assert loans[x].borrower in Borrowers(loans);
    OpenSumCoversEach(before, x, ByCollateral);
    OpenSumClose(before, x, Defaulted, ByCollateral);
  }

  /** ETH balances after `collect(loanIds)`: each loan the batch defaults
      splits its collateral between the reserve and its borrower as
      `CollectedEth` says. The loan manager pays out exactly the collateral
      that leaves the open loans, and no account but it, the reserve and the
      borrowers changes. */
  function CollectAllEth(eth: map<Address, nat>, loanManager: Address, reserve: Address,
                         loans: seq<Loan>, loanIds: seq<nat>, now: nat, convertToWei: nat -> nat)
    : (eth': map<Address, nat>)
    requires loanManager != reserve && loanManager !in Borrowers(loans)
    requires OpenSum(loans, ByCollateral) <= Bal(eth, loanManager)
    ensures Total(eth') == Total(eth)
    ensures OpenSum(CollectAll(loans, loanIds, now), ByCollateral) <= OpenSum(loans, ByCollateral)
    ensures Bal(eth', loanManager) + OpenSum(loans, ByCollateral)
            == Bal(eth, loanManager) + OpenSum(CollectAll(loans, loanIds, now), ByCollateral)
    ensures forall a :: a != loanManager && a != reserve && a !in Borrowers(loans) ==> Bal(eth', a) == Bal(eth, a)
    decreases |loanIds|
  {
    if |loanIds| == 0 then eth
    else
      var n := |loanIds| - 1;
      var before := CollectAll(loans, loanIds[..n], now);
      var prev := CollectAllEth(eth, loanManager, reserve, loans, loanIds[..n], now, convertToWei);
      var x := loanIds[n];
      if Collectible(before, x, now) then
        CollectAllKeepsBorrower(loans, loanIds[..n], now, x);
        CollectedEthStep(eth, prev, loanManager, reserve, loans, before, x, now, convertToWei);
        CollectedEth(prev, loanManager, reserve, before[x].borrower, CollectionOf(before[x], convertToWei))
      else prev
  }

  /** The loan manager's events of `collect(loanIds)`: one `LoanCollected`
      per loan the batch defaults, in order, naming a listed loan. */
  function CollectEvents(loans: seq<Loan>, loanIds: seq<nat>, now: nat, convertToWei: nat -> nat): (es: seq<LoanEvent>)
    ensures OpenSum(CollectAll(loans, loanIds, now), ByCount) <= OpenSum(loans, ByCount)
    ensures |es| + OpenSum(CollectAll(loans, loanIds, now), ByCount) == OpenSum(loans, ByCount)
    ensures forall k :: 0 <= k < |es| ==> es[k].LoanCollected? && es[k].loanId in loanIds
    decreases |loanIds|
  {
    if |loanIds| == 0 then []
    else
      var n := |loanIds| - 1;
      var before := CollectAll(loans, loanIds[..n], now);
      var prev := CollectEvents(loans, loanIds[..n], now, convertToWei);
      var x := loanIds[n];
      if Collectible(before, x, now) then
        OpenSumClose(before, x, Defaulted, ByCount);
        var c := CollectionOf(before[x], convertToWei);
        prev + [LoanCollected(x, before[x].borrower, c.collectedCollateral, c.releasedCollateral, c.defaultingFee)]
      else prev
  }

  /** Every open loan's amount is part of the open sum. */
  lemma {:induction false} OpenSumCoversEach(loans: seq<Loan>, i: nat, m: Measure)
    requires i < |loans| && loans[i].state == Open
    ensures Measured(loans[i], m) <= OpenSum(loans, m)
    decreases |loans|
  {
    var n := |loans| - 1;
    if i < n {
      assert loans[..n][i] == loans[i];
      OpenSumCoversEach(loans[..n], i, m);
    }
  }

  /** One more loan id: `collect` tries it on the loans the earlier ids
      left, and its ETH and events follow those of the earlier ids. */
  lemma CollectAllNext(eth: map<Address, nat>, loanManager: Address, reserve: Address,
                       loans: seq<Loan>, loanIds: seq<nat>, i: nat, now: nat, convertToWei: nat -> nat)
    requires i < |loanIds|
    requires loanManager != reserve && loanManager !in Borrowers(loans)
    requires OpenSum(loans, ByCollateral) <= Bal(eth, loanManager)
    ensures var before := CollectAll(loans, loanIds[..i], now);
      var x := loanIds[i];
      var prev := CollectAllEth(eth, loanManager, reserve, loans, loanIds[..i], now, convertToWei);
      && CollectAll(loans, loanIds[..i + 1], now) == CollectStep(before, x, now)
      && (!Collectible(before, x, now) ==>
            && CollectAllEth(eth, loanManager, reserve, loans, loanIds[..i + 1], now, convertToWei) == prev
            && CollectEvents(loans, loanIds[..i + 1], now, convertToWei) == CollectEvents(loans, loanIds[..i], now, convertToWei))
      && (Collectible(before, x, now) ==>
            var c := CollectionOf(before[x], convertToWei);
            && Bal(prev, loanManager) >= c.collectedCollateral + c.releasedCollateral
            && CollectAllEth(eth, loanManager, reserve, loans, loanIds[..i + 1], now, convertToWei)
               == CollectedEth(prev, loanManager, reserve, before[x].borrower, c)
            && CollectEvents(loans, loanIds[..i + 1], now, convertToWei)
               == CollectEvents(loans, loanIds[..i], now, convertToWei)
                  + [LoanCollected(x, before[x].borrower, c.collectedCollateral, c.releasedCollateral, c.defaultingFee)])
  {
    assert loanIds[..i + 1][..i] == loanIds[..i];
    var before := CollectAll(loans, loanIds[..i], now);
    if Collectible(before, loanIds[i], now) {
      OpenSumCoversEach(before, loanIds[i], ByCollateral);
    }
  }

  /** The loan book of a loan manager at `lm`: every loan keeps its
      bookkeeping and is owed by someone else, the supervisor's loan total
      covers the open loans, and `lm` holds the collateral of all of them. */
  ghost predicate Books(loans: seq<Loan>, eth: map<Address, nat>, lm: Address, totalLoanAmount: nat) {
    && (forall i :: 0 <= i < |loans| ==> WellFormed(loans[i]) && loans[i].borrower != lm)
    && OpenSum(loans, ByLoanAmount) <= totalLoanAmount
    && OpenSum(loans, ByCollateral) <= Bal(eth, lm)
    && (forall i :: 0 <= i < |loans| && loans[i].state == Open ==> loans[i].collateralAmount <= Bal(eth, lm))
  }

  /** `collect([loanId])` on a collectible loan defaults it, sends its
      collected collateral to the reserve and the rest to its borrower, and
      emits one `LoanCollected` carrying the split. */
  lemma CollectSingleLoan(eth: map<Address, nat>, loanManager: Address, reserve: Address,
                          loans: seq<Loan>, loanId: nat, now: nat, convertToWei: nat -> nat)
    requires loanManager != reserve && loanManager !in Borrowers(loans)
    requires OpenSum(loans, ByCollateral) <= Bal(eth, loanManager)
    requires Collectible(loans, loanId, now)
    ensures loans[loanId].collateralAmount <= Bal(eth, loanManager)
    ensures var l := loans[loanId];
      var c := CollectionOf(l, convertToWei);
      && CollectAll(loans, [loanId], now) == loans[loanId := l.(state := Defaulted)]
      && CollectOutcomes(loans, [loanId], now) == [Pass]
      && CollectAllEth(eth, loanManager, reserve, loans, [loanId], now, convertToWei)
         == CollectedEth(eth, loanManager, reserve, l.borrower, c)
      && CollectEvents(loans, [loanId], now, convertToWei)
         == [LoanCollected(loanId, l.borrower, c.collectedCollateral, c.releasedCollateral, c.defaultingFee)]
  {
    OpenSumCoversEach(loans, loanId, ByCollateral);
    assert [loanId][..0] == [];
  }

  /** One more loan id adds the outcome of trying it on the loans the
      earlier ids left. */
  lemma CollectOutcomeNext(loans: seq<Loan>, loanIds: seq<nat>, i: nat, now: nat)
    requires i < |loanIds|
    ensures CollectOutcomes(loans, loanIds[..i + 1], now)
            == CollectOutcomes(loans, loanIds[..i], now) + [StepOutcome(CollectAll(loans, loanIds[..i], now), loanIds[i], now)]
  {
    assert loanIds[..i + 1][..i] == loanIds[..i];
  }

  /** No loan in a balanced book is owed by the loan manager itself. */
  lemma BorrowersAreNotLender(loans: seq<Loan>, eth: map<Address, nat>, lm: Address, totalLoanAmount: nat)
    requires Books(loans, eth, lm, totalLoanAmount)
    ensures lm !in Borrowers(loans)
    ensures OpenSum(loans, ByCollateral) <= Bal(eth, lm)
  {
  }

  /** The collateral of each open loan is held, once the sum is. */
  lemma CollateralHeld(loans: seq<Loan>, eth: map<Address, nat>, lm: Address)
    requires OpenSum(loans, ByCollateral) <= Bal(eth, lm)
    ensures forall i :: 0 <= i < |loans| && loans[i].state == Open ==> loans[i].collateralAmount <= Bal(eth, lm)
  {
    forall i | 0 <= i < |loans| && loans[i].state == Open
      ensures loans[i].collateralAmount <= Bal(eth, lm)
    {
      OpenSumCoversEach(loans, i, ByCollateral);
    }
  }

  /** Disbursing a new loan keeps the book balanced: its collateral comes in
      and its amount is added to the loan total. */
  lemma BooksAfterNewLoan(loans: seq<Loan>, eth: map<Address, nat>, lm: Address, totalLoanAmount: nat, l: Loan)
    requires Books(loans, eth, lm, totalLoanAmount)
    requires WellFormed(l) && l.state == Open && l.borrower != lm
    requires Bal(eth, l.borrower) >= l.collateralAmount
    ensures Books(loans + [l], Moved(eth, l.borrower, lm, l.collateralAmount), lm, totalLoanAmount + l.loanAmount)
  {
    OpenSumAppend(loans, l, ByLoanAmount);
    OpenSumAppend(loans, l, ByCollateral);
    CollateralHeld(loans + [l], Moved(eth, l.borrower, lm, l.collateralAmount), lm);
  }

  /** Closing an open loan keeps the book balanced when the loan total and
      the loan manager's ETH drop by what the loan held. */
  lemma BooksAfterClose(loans: seq<Loan>, eth: map<Address, nat>, lm: Address, totalLoanAmount: nat,
                        i: nat, s: LoanState, eth': map<Address, nat>)
    requires Books(loans, eth, lm, totalLoanAmount)
    requires i < |loans| && loans[i].state == Open && s != Open
    requires Bal(eth', lm) + loans[i].collateralAmount == Bal(eth, lm)
    ensures loans[i].loanAmount <= totalLoanAmount
    ensures Books(loans[i := loans[i].(state := s)], eth', lm, totalLoanAmount - loans[i].loanAmount)
  {
    OpenSumCoversEach(loans, i, ByLoanAmount);
    OpenSumClose(loans, i, s, ByLoanAmount);
    OpenSumClose(loans, i, s, ByCollateral);
    CollateralHeld(loans[i := loans[i].(state := s)], eth', lm);
  }

  class LoanManager {
    /** Address of this contract. */
    const address: Address
    const token: AugmintToken
    const supervisor: MonetarySupervisor
    /** Loan products, indexed by product id. */
    const products: seq<Product>
    /** Loans, indexed by loan id. */
    var loans: seq<Loan>
    /** ETH balances (wei) of all accounts. */
    var ethBalances: map<Address, nat>
    var log: seq<LoanEvent>

    /** The loan manager transfers without fee, is none of the accounts it
      pays, and its loan book balances. */
    ghost predicate Valid()
      reads this, token, supervisor
    {
      && supervisor.augmintToken == token
      && token.Valid()
      && address in token.noFeeTransfer
      && address != token.feeAccount
      && address != supervisor.interestEarnedAccount
      && address != supervisor.augmintReserves
      && Books(loans, ethBalances, address, supervisor.totalLoanAmount)
    }

    constructor (address: Address, token: AugmintToken, supervisor: MonetarySupervisor,
                 products: seq<Product>, ethBalances: map<Address, nat>)
      requires supervisor.augmintToken == token && token.Valid()
      requires address in token.noFeeTransfer && address != token.feeAccount
      requires address != supervisor.interestEarnedAccount && address != supervisor.augmintReserves
      ensures Valid()
      ensures this.address == address && this.token == token && this.supervisor == supervisor
      ensures this.products == products && this.ethBalances == ethBalances
      ensures loans == [] && log == []
    {
      this.address := address;
      this.token := token;
      this.supervisor := supervisor;
      this.products := products;
      this.ethBalances := ethBalances;
      loans, log := [], [];
    }

    /** `newEthBackedLoan(productId)` sent by `borrower` with `collateral` wei.
      `convertFromWei` is the rate oracle; `ltdApproved` is the monetary
      supervisor's loan-to-deposit verdict. */
    method NewEthBackedLoan(borrower: Address, productId: nat, collateral: nat, now: nat,
                            convertFromWei: nat -> nat, ltdApproved: bool) returns (r: Result<nat>)
      requires Valid() && borrower != address
      modifies this`loans, this`ethBalances, this`log, supervisor`totalLoanAmount, token
      ensures Valid()
      ensures var tokenValue := convertFromWei(collateral);
        var check := NewLoanCheck(products, productId, old(Bal(ethBalances, borrower)), collateral, tokenValue, ltdApproved);
        if check.Fail? then
          && r == Err(check.error)
          && loans == old(loans) && ethBalances == old(ethBalances) && log == old(log)
          && supervisor.totalLoanAmount == old(supervisor.totalLoanAmount)
          && unchanged(token)
        else
          var l := NewLoanRecord(borrower, products[productId], collateral, tokenValue, now);
          && r == Ok(|old(loans)|)
          && loans == old(loans) + [l]
          && ethBalances == Moved(old(ethBalances), borrower, address, collateral)
          && supervisor.totalLoanAmount == old(supervisor.totalLoanAmount) + l.loanAmount
          && token.balances == AfterMint(old(token.balances), borrower, l.loanAmount)
          && token.totalSupply == old(token.totalSupply) + l.loanAmount
          && token.log == old(token.log) + TransferEvents(ZeroAddress, borrower, l.loanAmount, 0, "")
          && log == old(log) + [NewLoan(|old(loans)|, productId, borrower, collateral, l.loanAmount, l.repaymentAmount)]
      ensures token.allowed == old(token.allowed) && token.noFeeTransfer == old(token.noFeeTransfer)
    {
      var tokenValue := convertFromWei(collateral);
      var check := NewLoanCheck(products, productId, Bal(ethBalances, borrower), collateral, tokenValue, ltdApproved);
      if check.Fail? {
        return Err(check.error);
      }
      var l := NewLoanRecord(borrower, products[productId], collateral, tokenValue, now);
      r := Ok(|loans|);
      Disburse(productId, l);
    }

    /** Stores an approved loan, takes its collateral and has the supervisor
      issue its amount to the borrower. */
    method Disburse(productId: nat, l: Loan)
      requires Valid() && WellFormed(l) && l.state == Open && l.borrower != address
      requires Bal(ethBalances, l.borrower) >= l.collateralAmount
      modifies this`loans, this`ethBalances, this`log, supervisor`totalLoanAmount, token
      ensures Valid()
      ensures loans == old(loans) + [l]
      ensures ethBalances == Moved(old(ethBalances), l.borrower, address, l.collateralAmount)
      ensures supervisor.totalLoanAmount == old(supervisor.totalLoanAmount) + l.loanAmount
      ensures token.balances == AfterMint(old(token.balances), l.borrower, l.loanAmount)
      ensures token.totalSupply == old(token.totalSupply) + l.loanAmount
      ensures token.log == old(token.log) + TransferEvents(ZeroAddress, l.borrower, l.loanAmount, 0, "")
      ensures log == old(log) + [NewLoan(|old(loans)|, productId, l.borrower, l.collateralAmount, l.loanAmount, l.repaymentAmount)]
      ensures token.allowed == old(token.allowed) && token.noFeeTransfer == old(token.noFeeTransfer)
    {
      BooksAfterNewLoan(loans, ethBalances, address, supervisor.totalLoanAmount, l);
      var issued := supervisor.IssueLoan(l.borrower, l.loanAmount, true);
      log := log + [NewLoan(|loans|, productId, l.borrower, l.collateralAmount, l.loanAmount, l.repaymentAmount)];
      loans := loans + [l];
      ethBalances := Moved(ethBalances, l.borrower, address, l.collateralAmount);
    }

    /** The token side of a repayment: the borrower's repayment reaches the
      loan manager without fee, the interest goes on to the interest-earned
      account and the loan amount is burnt. */
    method ReceiveRepayment(borrower: Address, l: Loan)
      requires Valid() && borrower != address && WellFormed(l)
      requires token.BalanceOf(borrower) >= l.repaymentAmount
      modifies token
      ensures token.Valid() && token.noFeeTransfer == old(token.noFeeTransfer) && token.allowed == old(token.allowed)
      ensures token.balances == RepaidBalances(old(token.balances), borrower, address,
                                               supervisor.interestEarnedAccount, token.feeAccount, l)
      ensures token.totalSupply == old(token.totalSupply) - l.loanAmount
      ensures token.log == old(token.log) + RepaymentEvents(borrower, address, supervisor.interestEarnedAccount, l)
    {
      var ie := supervisor.interestEarnedAccount;
      var received := token.Transfer(borrower, address, l.repaymentAmount);
      var paidInterest := token.Transfer(address, ie, l.interestAmount);
      token.Burn(address, l.loanAmount);
    }

    /** `token.transferAndNotify(loanManager, amount, loanId)` sent by
      `borrower`: the exact repayment amount closes the loan, the interest
      goes to the interest-earned account, the loan amount is burnt and the
      collateral returns to the borrower. */
    method Repay(borrower: Address, loanId: nat, amount: nat) returns (r: Outcome)
      requires Valid() && borrower != address
      modifies this`loans, this`ethBalances, this`log, supervisor`totalLoanAmount, token
      ensures Valid()
      ensures var check := RepayCheck(old(loans), loanId, borrower, amount, old(token.BalanceOf(borrower)));
        if check.Fail? then
          && r == check
          && loans == old(loans) && ethBalances == old(ethBalances) && log == old(log)
          && supervisor.totalLoanAmount == old(supervisor.totalLoanAmount)
          && unchanged(token)
        else
          var l := old(loans)[loanId];
          && r == Pass
          && loans == old(loans)[loanId := l.(state := Repaid)]
          && ethBalances == Moved(old(ethBalances), address, borrower, l.collateralAmount)
          && token.balances == RepaidBalances(old(token.balances), borrower, address,
                                              supervisor.interestEarnedAccount, token.feeAccount, l)
          && token.totalSupply == old(token.totalSupply) - l.loanAmount
          && token.log == old(token.log) + RepaymentEvents(borrower, address, supervisor.interestEarnedAccount, l)
          && supervisor.totalLoanAmount == old(supervisor.totalLoanAmount) - l.loanAmount
          && log == old(log) + [LoanRepayed(loanId, borrower)]
      ensures token.allowed == old(token.allowed) && token.noFeeTransfer == old(token.noFeeTransfer)
    {
      r := RepayCheck(loans, loanId, borrower, amount, token.BalanceOf(borrower));
      if r.Fail? {
        return;
      }
      var l := loans[loanId];
      var eth' := Moved(ethBalances, address, borrower, l.collateralAmount);
      BooksAfterClose(loans, ethBalances, address, supervisor.totalLoanAmount, loanId, Repaid, eth');
      ReceiveRepayment(borrower, l);
      supervisor.LoanClosedNotification(l.loanAmount);
      loans := loans[loanId := l.(state := Repaid)];
      ethBalances := eth';
      log := log + [LoanRepayed(loanId, borrower)];
    }

    /** Collects one loan of a `collect` batch, or leaves everything as it is
      when the loan is missing, closed or not yet matured. */
    method CollectOne(loanId: nat, now: nat, convertToWei: nat -> nat) returns (r: Outcome)
      requires Valid()
      modifies this`loans, this`ethBalances, this`log, supervisor`totalLoanAmount
      ensures Valid()
      ensures loans == CollectStep(old(loans), loanId, now)
      ensures r == StepOutcome(old(loans), loanId, now)
      ensures !Collectible(old(loans), loanId, now) ==>
        && ethBalances == old(ethBalances) && log == old(log)
        && supervisor.totalLoanAmount == old(supervisor.totalLoanAmount)
      ensures Collectible(old(loans), loanId, now) ==>
        var l := old(loans)[loanId];
        var c := CollectionOf(l, convertToWei);
        && ethBalances == CollectedEth(old(ethBalances), address, supervisor.augmintReserves, l.borrower, c)
        && supervisor.totalLoanAmount == old(supervisor.totalLoanAmount) - l.loanAmount
        && log == old(log) + [LoanCollected(loanId, l.borrower, c.collectedCollateral, c.releasedCollateral, c.defaultingFee)]
      ensures old(supervisor.totalLoanAmount) - supervisor.totalLoanAmount
              == OpenSum(old(loans), ByLoanAmount) - OpenSum(loans, ByLoanAmount)
      ensures old(Bal(ethBalances, address)) - Bal(ethBalances, address)
              == OpenSum(old(loans), ByCollateral) - OpenSum(loans, ByCollateral)
    {
      if !Collectible(loans, loanId, now) {
        return Fail(if loanId >= |loans| then NotFound else InvalidState);
      }
      var l := loans[loanId];
      var c := CollectionOf(l, convertToWei);
      var eth' := CollectedEth(ethBalances, address, supervisor.augmintReserves, l.borrower, c);
      BooksAfterClose(loans, ethBalances, address, supervisor.totalLoanAmount, loanId, Defaulted, eth');
      OpenSumClose(loans, loanId, Defaulted, ByLoanAmount);
      OpenSumClose(loans, loanId, Defaulted, ByCollateral);
      supervisor.LoanClosedNotification(l.loanAmount);
      ethBalances := eth';
      loans := loans[loanId := l.(state := Defaulted)];
      log := log + [LoanCollected(loanId, l.borrower, c.collectedCollateral, c.releasedCollateral, c.defaultingFee)];
      r := Pass;
    }

    /** What the first `i` ids of a `collect(loanIds)` batch have done to a
      loan manager that held `loans0`, `eth0` and `log0` and a loan total of
      `total0`: the loans, ETH and events follow the batch folds, and the
      loan total dropped by the loan amounts that left the open loans. */
    ghost predicate CollectedPrefix(loans0: seq<Loan>, eth0: map<Address, nat>, log0: seq<LoanEvent>, total0: nat,
                                    loanIds: seq<nat>, i: nat, now: nat, convertToWei: nat -> nat)
      reads this, supervisor
      requires i <= |loanIds|
      requires address != supervisor.augmintReserves && address !in Borrowers(loans0)
      requires OpenSum(loans0, ByCollateral) <= Bal(eth0, address)
    {
      && loans == CollectAll(loans0, loanIds[..i], now)
      && total0 - supervisor.totalLoanAmount == OpenSum(loans0, ByLoanAmount) - OpenSum(loans, ByLoanAmount)
      && ethBalances == CollectAllEth(eth0, address, supervisor.augmintReserves, loans0, loanIds[..i], now, convertToWei)
      && log == log0 + CollectEvents(loans0, loanIds[..i], now, convertToWei)
    }

    /** One step of a `collect` batch: tries the `i`-th id. */
    method CollectNext(ghost loans0: seq<Loan>, ghost eth0: map<Address, nat>, ghost log0: seq<LoanEvent>, ghost total0: nat,
                       loanIds: seq<nat>, i: nat, now: nat, convertToWei: nat -> nat) returns (o: Outcome)
      requires Valid() && i < |loanIds|
      requires address != supervisor.augmintReserves && address !in Borrowers(loans0)
      requires OpenSum(loans0, ByCollateral) <= Bal(eth0, address)
      requires CollectedPrefix(loans0, eth0, log0, total0, loanIds, i, now, convertToWei)
      modifies this`loans, this`ethBalances, this`log, supervisor`totalLoanAmount
      ensures Valid()
      ensures CollectedPrefix(loans0, eth0, log0, total0, loanIds, i + 1, now, convertToWei)
      ensures o == StepOutcome(CollectAll(loans0, loanIds[..i], now), loanIds[i], now)
    {
      CollectAllNext(eth0, address, supervisor.augmintReserves, loans0, loanIds, i, now, convertToWei);
      o := CollectOne(loanIds[i], now, convertToWei);
    }

    /** `collect(loanIds)`: tries every listed loan; one that cannot be
      collected fails on its own without undoing the others. The defaulted
      loans' collateral goes to the reserve and their borrowers as
      `CollectAllEth` says, one `LoanCollected` is logged per defaulted loan,
      and the loan total and the loan manager's ETH drop by exactly what the
      defaulted loans held. */
    method Collect(loanIds: seq<nat>, now: nat, convertToWei: nat -> nat) returns (outcomes: seq<Outcome>)
      requires Valid()
      modifies this`loans, this`ethBalances, this`log, supervisor`totalLoanAmount
      ensures Valid()
      ensures outcomes == CollectOutcomes(old(loans), loanIds, now)
      ensures loans == CollectAll(old(loans), loanIds, now)
      ensures old(supervisor.totalLoanAmount) - supervisor.totalLoanAmount
              == OpenSum(old(loans), ByLoanAmount) - OpenSum(loans, ByLoanAmount)
      ensures old(Bal(ethBalances, address)) - Bal(ethBalances, address)
              == OpenSum(old(loans), ByCollateral) - OpenSum(loans, ByCollateral)
      ensures ethBalances == CollectAllEth(old(ethBalances), address, supervisor.augmintReserves, old(loans), loanIds, now, convertToWei)
      ensures log == old(log) + CollectEvents(old(loans), loanIds, now, convertToWei)
    {
      ghost var loans0, total0, eth0, log0 := loans, supervisor.totalLoanAmount, ethBalances, log;
      BorrowersAreNotLender(loans0, eth0, address, total0);
      outcomes := [];
      var i := 0;
      while i < |loanIds|
        invariant 0 <= i <= |loanIds|
        invariant Valid()
        invariant outcomes == CollectOutcomes(loans0, loanIds[..i], now)
        invariant CollectedPrefix(loans0, eth0, log0, total0, loanIds, i, now, convertToWei)
      {
        CollectOutcomeNext(loans0, loanIds, i, now);
        var o := CollectNext(loans0, eth0, log0, total0, loanIds, i, now, convertToWei);
        outcomes := outcomes + [o];
        i := i + 1;
      }
      assert loanIds[..i] == loanIds;
    }
  }
}
