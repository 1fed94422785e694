/** Loan disbursement and collection arithmetic of the LoanManager
    (test/helpers/loanTestHelpers.js, calcLoanValues and collectLoan). */
module LoanMath {
  import opened Common
  import opened FixedPoint

  /** A whole number of cents, written in token units, is a multiple of
      `DecimalsCut` that divides back exactly. */
  lemma WholeCents(q: int)
    ensures (q * DecimalsCut) % DecimalsCut == 0
    ensures (q * DecimalsCut) / DecimalsCut == q
  {
  }

  /** A loan product. `discountRate`, `collateralRatio` and `defaultingFeePt`
      are in parts per million; `term` is in seconds. */
  datatype Product = Product(
    term: nat,
    discountRate: nat,
    collateralRatio: nat,
    minDisbursedAmount: nat,
    defaultingFeePt: nat,
    isActive: bool)

  /** Divisor of the disbursement formulas: the ppm scale of the ratio (1e6)
      times the two token decimals dropped by the final `* 100`. */
  const RatioScale: nat := 100000000

  /** Token amounts are kept at 4 decimals but loans are rounded to 2. */
  const DecimalsCut: nat := 100

  /** `repaymentAmount = roundedDiv(tokenValue * collateralRatio, 1e8) * 100`:
      a whole number of cents, the nearest one (ties up) to
      tokenValue * collateralRatio / 1e6. */
  function RepaymentAmount(tokenValue: nat, collateralRatio: nat): (r: nat)
    ensures r % DecimalsCut == 0
    ensures (2 * (r / DecimalsCut) - 1) * RatioScale
            <= 2 * (tokenValue * collateralRatio)
            < (2 * (r / DecimalsCut) + 1) * RatioScale
  {
    var q := RoundedDiv(tokenValue * collateralRatio, RatioScale);
    WholeCents(q);
    q * DecimalsCut
  }

  /** `mul = collateralRatio * discountRate / 1e6`, rounded down: the ppm
      share of the collateral value that is disbursed. */
  function DiscountMultiplier(collateralRatio: nat, discountRate: nat): (m: nat)
    ensures m * PPM <= collateralRatio * discountRate < (m + 1) * PPM
    ensures discountRate <= PPM ==> m <= collateralRatio
  {
    assert discountRate <= PPM ==> collateralRatio * discountRate / PPM <= collateralRatio by {
      if discountRate <= PPM { ScaledDownAtMost(collateralRatio, discountRate, PPM); }
    }
    collateralRatio * discountRate / PPM
  }

  /** `loanAmount = roundedDiv(tokenValue * mul, 1e8) * 100`: the inner
      multiplier rounds down, the outer division half up. */
  function LoanAmount(tokenValue: nat, collateralRatio: nat, discountRate: nat): (r: nat)
    ensures r % DecimalsCut == 0
    ensures var m := DiscountMultiplier(collateralRatio, discountRate);
      (2 * (r / DecimalsCut) - 1) * RatioScale
      <= 2 * (tokenValue * m)
      < (2 * (r / DecimalsCut) + 1) * RatioScale
  {
    var q := RoundedDiv(tokenValue * DiscountMultiplier(collateralRatio, discountRate), RatioScale);
    WholeCents(q);
    q * DecimalsCut
  }

  /** With a discount rate of at most 100% the disbursed amount never
      exceeds what is to be repaid. */
  lemma LoanAmountAtMostRepayment(tokenValue: nat, collateralRatio: nat, discountRate: nat)
    requires discountRate <= PPM
    ensures LoanAmount(tokenValue, collateralRatio, discountRate) <= RepaymentAmount(tokenValue, collateralRatio)
  {
    var m := DiscountMultiplier(collateralRatio, discountRate);
    MulMonotone(m, collateralRatio, tokenValue);
    assert m * tokenValue == tokenValue * m;
    assert collateralRatio * tokenValue == tokenValue * collateralRatio;
    RoundedDivMonotone(tokenValue * m, tokenValue * collateralRatio, RatioScale);
  }

  /** `interestAmount = repaymentAmount - loanAmount`: a whole number of cents,
      and never negative when the discount rate is at most 100%. */
  function InterestAmount(tokenValue: nat, collateralRatio: nat, discountRate: nat): (r: int)
    ensures r % DecimalsCut == 0
    ensures discountRate <= PPM ==> r >= 0
    ensures r + LoanAmount(tokenValue, collateralRatio, discountRate) == RepaymentAmount(tokenValue, collateralRatio)
  {
    var repayment := RepaymentAmount(tokenValue, collateralRatio);
    var loanAmount := LoanAmount(tokenValue, collateralRatio, discountRate);
    assert discountRate <= PPM ==> loanAmount <= repayment by {
      if discountRate <= PPM { LoanAmountAtMostRepayment(tokenValue, collateralRatio, discountRate); }
    }
    assert (repayment - loanAmount) % DecimalsCut == 0 by {
      WholeCents(repayment / DecimalsCut - loanAmount / DecimalsCut);
    }
    repayment - loanAmount
  }

  /** `targetFeeInToken = repaymentAmount * defaultingFeePt / 1e6`. The
      helper divides without rounding; the model rounds down as Solidity does. */
  function TargetFeeInToken(repaymentAmount: nat, defaultingFeePt: nat): (r: nat)
    ensures r * PPM <= repaymentAmount * defaultingFeePt < (r + 1) * PPM
  {
    repaymentAmount * defaultingFeePt / PPM
  }

  /** `targetCollectionInToken = repaymentAmount * (defaultingFeePt + 1e6) / 1e6`,
      rounded down: the repayment plus the defaulting fee. */
  function TargetCollectionInToken(repaymentAmount: nat, defaultingFeePt: nat): (r: nat)
    ensures r == repaymentAmount + TargetFeeInToken(repaymentAmount, defaultingFeePt)
  {
    assert repaymentAmount * (defaultingFeePt + PPM) == repaymentAmount * defaultingFeePt + repaymentAmount * PPM;
    DivAddMultiple(repaymentAmount * defaultingFeePt, repaymentAmount, PPM);
    repaymentAmount * (defaultingFeePt + PPM) / PPM
  }

  /** How the collateral of a collected loan is divided (amounts in wei). */
  datatype Collection = Collection(releasedCollateral: nat, collectedCollateral: nat, defaultingFee: nat)

  /** releasedCollateral = max(collateral - targetCollectionInWei, 0),
      collectedCollateral = collateral - releasedCollateral,
      defaultingFee = min(targetFeeInWei, collectedCollateral). */
  function SplitCollateral(collateral: nat, targetCollectionInWei: nat, targetFeeInWei: nat): (c: Collection)
    ensures c.releasedCollateral + c.collectedCollateral == collateral
    ensures c.collectedCollateral <= targetCollectionInWei
    ensures c.releasedCollateral > 0 ==> c.collectedCollateral == targetCollectionInWei
    ensures c.defaultingFee <= c.collectedCollateral && c.defaultingFee <= targetFeeInWei
    ensures c.defaultingFee == targetFeeInWei || c.defaultingFee == c.collectedCollateral
  {
    var released := if collateral > targetCollectionInWei then collateral - targetCollectionInWei else 0;
    var collected := collateral - released;
    Collection(released, collected, if targetFeeInWei < collected then targetFeeInWei else collected)
  }

  /** The oracle's token-to-wei conversion never decreases. */
  ghost predicate Monotone(toWei: nat -> nat) {
    forall x: nat, y: nat :: x <= y ==> toWei(x) <= toWei(y)
  }

  /** Collecting a loan with a monotone oracle: the reserve gets the smaller of
      the collateral and the target collection, and the defaulting fee is the
      smaller of the target fee and the whole collateral. */
  lemma CollectionWithMonotoneOracle(collateral: nat, repaymentAmount: nat, defaultingFeePt: nat, toWei: nat -> nat)
    requires Monotone(toWei)
    ensures var target := toWei(TargetCollectionInToken(repaymentAmount, defaultingFeePt));
      var fee := toWei(TargetFeeInToken(repaymentAmount, defaultingFeePt));
      var c := SplitCollateral(collateral, target, fee);
      && c.collectedCollateral == (if collateral < target then collateral else target)
      && c.defaultingFee == (if fee < collateral then fee else collateral)
  {
    var feeInToken := TargetFeeInToken(repaymentAmount, defaultingFeePt);
    var targetInToken := TargetCollectionInToken(repaymentAmount, defaultingFeePt);
    assert toWei(feeInToken) <= toWei(targetInToken);
  }
}
