/** The MonetarySupervisor: the system-wide loan total, the loan issue gate,
    and the 1:1 conversion of legacy Augmint tokens into the current token
    (test/tokenConversion.js). */
module Supervisor {
  import opened Common
  import opened TokenLedger

  /** Events of the monetary supervisor. */
  datatype SupervisorEvent =
    | AcceptedLegacyAugmintTokenChanged(augmintTokenAddress: Address, newAcceptedState: bool)
    | LegacyTokenConverted(oldTokenAddress: Address, account: Address, amount: nat)

  /** The set of accepted legacy tokens after setting `token`'s state. */
  function SetAccepted(accepted: set<Address>, token: Address, state: bool): (s: set<Address>)
    ensures token in s <==> state
    ensures forall t :: t != token ==> (t in s <==> t in accepted)
  {
    if state then accepted + {token} else accepted - {token}
  }

  /** The old token's balances after a legacy conversion: `account` sends
      `amount` (and the fee, if any) to the supervisor, which burns `amount`. */
  function ConvertedOldBalances(b: map<Address, nat>, account: Address, supervisor: Address, feeAccount: Address, amount: nat, fee: nat)
    : (b': map<Address, nat>)
    requires Bal(b, account) >= amount + fee
    ensures Total(b') + amount == Total(b)
    ensures account != supervisor && account != feeAccount && supervisor != feeAccount ==>
      && Bal(b', account) == Bal(b, account) - amount - fee
      && Bal(b', supervisor) == Bal(b, supervisor)
      && Bal(b', feeAccount) == Bal(b, feeAccount) + fee
    ensures forall a :: a != account && a != supervisor && a != feeAccount ==> Bal(b', a) == Bal(b, a)
  {
    var sent := AfterTransfer(b, account, supervisor, feeAccount, amount, fee);
    AfterBurn(sent, supervisor, amount)
  }

  class MonetarySupervisor {
    /** Address of this contract. */
    const address: Address
    /** The current Augmint token, which this supervisor issues. */
    const augmintToken: AugmintToken
    /** Account that receives defaulted collateral. */
    const augmintReserves: Address
    /** Account that receives loan interest. */
    const interestEarnedAccount: Address
    /** Holders of the StabilityBoard permission on this contract. */
    var stabilityBoard: set<Address>
    /** Sum of the loan amounts of all open loans. */
    var totalLoanAmount: nat
    var acceptedLegacyAugmintTokens: set<Address>
    var log: seq<SupervisorEvent>

    ghost predicate Valid()
      reads this, augmintToken
    {
      augmintToken.Valid()
    }

    constructor (address: Address, augmintToken: AugmintToken, augmintReserves: Address,
                 interestEarnedAccount: Address, stabilityBoard: set<Address>)
      requires augmintToken.Valid()
      ensures Valid()
      ensures this.address == address && this.augmintToken == augmintToken
      ensures this.augmintReserves == augmintReserves && this.interestEarnedAccount == interestEarnedAccount
      ensures this.stabilityBoard == stabilityBoard
      ensures totalLoanAmount == 0 && acceptedLegacyAugmintTokens == {} && log == []
    {
      this.address := address;
      this.augmintToken := augmintToken;
      this.augmintReserves := augmintReserves;
      this.interestEarnedAccount := interestEarnedAccount;
      this.stabilityBoard := stabilityBoard;
      totalLoanAmount, acceptedLegacyAugmintTokens, log := 0, {}, [];
    }

    /** `setAcceptedLegacyAugmintToken(token, state)` sent by `caller`:
      only a StabilityBoard member may change the accepted set. */
    method SetAcceptedLegacyAugmintToken(caller: Address, legacyToken: Address, newAcceptedState: bool)
      returns (r: Outcome)
      modifies this`acceptedLegacyAugmintTokens, this`log
      ensures caller !in stabilityBoard ==>
        r == Fail(PermissionDenied) && acceptedLegacyAugmintTokens == old(acceptedLegacyAugmintTokens) && log == old(log)
      ensures caller in stabilityBoard ==>
        && r == Pass
        && acceptedLegacyAugmintTokens == SetAccepted(old(acceptedLegacyAugmintTokens), legacyToken, newAcceptedState)
        && log == old(log) + [AcceptedLegacyAugmintTokenChanged(legacyToken, newAcceptedState)]
    {
      if caller !in stabilityBoard {
        return Fail(PermissionDenied);
      }
      acceptedLegacyAugmintTokens := SetAccepted(acceptedLegacyAugmintTokens, legacyToken, newAcceptedState);
      log := log + [AcceptedLegacyAugmintTokenChanged(legacyToken, newAcceptedState)];
      r := Pass;
    }

    /** `issueLoan(borrower, loanAmount)`: mints the loan to the borrower and
      adds it to the loan total, unless the loan-to-deposit check refuses. */
    method IssueLoan(borrower: Address, loanAmount: nat, ltdApproved: bool) returns (r: Outcome)
      requires Valid()
      modifies this`totalLoanAmount, augmintToken
      ensures Valid()
      ensures !ltdApproved ==> r == Fail(InvariantViolation) && totalLoanAmount == old(totalLoanAmount) && unchanged(augmintToken)
      ensures ltdApproved ==>
        && r == Pass
        && totalLoanAmount == old(totalLoanAmount) + loanAmount
        && augmintToken.balances == AfterMint(old(augmintToken.balances), borrower, loanAmount)
        && augmintToken.totalSupply == old(augmintToken.totalSupply) + loanAmount
        && augmintToken.log == old(augmintToken.log) + TransferEvents(ZeroAddress, borrower, loanAmount, 0, "")
        && augmintToken.allowed == old(augmintToken.allowed)
        && augmintToken.noFeeTransfer == old(augmintToken.noFeeTransfer)
    {
      if !ltdApproved {
        return Fail(InvariantViolation);
      }
      totalLoanAmount := totalLoanAmount + loanAmount;
      augmintToken.IssueTo(borrower, loanAmount);
      r := Pass;
    }

    /** `loanRepaymentNotification` / `loanCollectionNotification`: a loan
      left the open state, so its amount leaves the loan total. */
    method LoanClosedNotification(loanAmount: nat)
      requires loanAmount <= totalLoanAmount
      modifies this`totalLoanAmount
      ensures totalLoanAmount == old(totalLoanAmount) - loanAmount
    {
      totalLoanAmount := totalLoanAmount - loanAmount;
    }

    /** `oldToken.transferAndNotify(supervisor, amount)` sent by `account`:
      if the old token is accepted, the transferred amount is burnt on the old
      token and the same amount is minted to `account` on the current one. */
    method ConvertLegacyTokens(oldToken: AugmintToken, account: Address, amount: nat) returns (r: Outcome)
      requires Valid() && oldToken.Valid() && oldToken != augmintToken
      modifies this`log, oldToken, augmintToken
      ensures Valid() && oldToken.Valid()
      ensures var fee := old(oldToken.FeeFor(account, address, amount));
        if oldToken.address !in acceptedLegacyAugmintTokens then
          r == Fail(PermissionDenied) && log == old(log) && unchanged(oldToken) && unchanged(augmintToken)
        else if old(oldToken.BalanceOf(account)) < amount + fee then
          r == Fail(InsufficientBalance) && log == old(log) && unchanged(oldToken) && unchanged(augmintToken)
        else
          && r == Pass
          && oldToken.balances == ConvertedOldBalances(old(oldToken.balances), account, address, oldToken.feeAccount, amount, fee)
          && oldToken.totalSupply == old(oldToken.totalSupply) - amount
          && oldToken.log == old(oldToken.log) + TransferEvents(account, address, amount, fee, "")
                                               + TransferEvents(address, ZeroAddress, amount, 0, "")
          && augmintToken.balances == AfterMint(old(augmintToken.balances), account, amount)
          && augmintToken.totalSupply == old(augmintToken.totalSupply) + amount
          && augmintToken.log == old(augmintToken.log) + TransferEvents(ZeroAddress, account, amount, 0, "")
          && log == old(log) + [LegacyTokenConverted(oldToken.address, account, amount)]
      ensures oldToken.allowed == old(oldToken.allowed) && oldToken.noFeeTransfer == old(oldToken.noFeeTransfer)
      ensures augmintToken.allowed == old(augmintToken.allowed) && augmintToken.noFeeTransfer == old(augmintToken.noFeeTransfer)
      ensures address in oldToken.noFeeTransfer ==> old(oldToken.FeeFor(account, address, amount)) == 0
    {
      if oldToken.address !in acceptedLegacyAugmintTokens {
        return Fail(PermissionDenied);
      }
      ghost var before := oldToken.balances;
      var fee := oldToken.FeeFor(account, address, amount);
      if oldToken.BalanceOf(account) < amount + fee {
        return Fail(InsufficientBalance);
      }
      r := oldToken.Transfer(account, address, amount);
      assert oldToken.BalanceOf(address) >= amount;
      oldToken.Burn(address, amount);
      assert oldToken.balances == ConvertedOldBalances(before, account, address, oldToken.feeAccount, amount, fee);
      augmintToken.IssueTo(account, amount);
      log := log + [LegacyTokenConverted(oldToken.address, account, amount)];
    }
  }
}
