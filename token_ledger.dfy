/** The fee-charging Augmint token (A-EUR): balances, allowances, the
    transfer fee and the two events every transfer emits
    (test/helpers/tokenAceTestHelper.js). */
module TokenLedger {
  import opened Common

  /** Events of the token contract. */
  datatype TokenEvent =
    | AugmintTransfer(from: Address, to: Address, amount: nat, fee: nat, narrative: string)
    | Transfer(from: Address, to: Address, amount: nat)
    | Approval(owner: Address, spender: Address, value: nat)

  /** The transfer fee: `amount * feePt / 1e6` rounded down, raised to
      `feeMin` when below it and lowered to `feeMax` when above it; zero when
      either party holds the NoFeeTransferContracts permission. */
  function TransferFee(amount: nat, feePt: nat, feeMin: nat, feeMax: nat, fromExempt: bool, toExempt: bool): (fee: nat)
    ensures fromExempt || toExempt ==> fee == 0
    ensures !fromExempt && !toExempt && feeMin <= feeMax ==> feeMin <= fee <= feeMax
    ensures !fromExempt && !toExempt && amount * feePt / PPM < feeMin ==> fee == feeMin
    ensures !fromExempt && !toExempt && feeMin <= amount * feePt / PPM && amount * feePt / PPM > feeMax ==> fee == feeMax
    ensures !fromExempt && !toExempt && feeMin <= amount * feePt / PPM <= feeMax ==>
      fee * PPM <= amount * feePt < (fee + 1) * PPM
  {
    if fromExempt || toExempt then 0
    else
      var fee := amount * feePt / PPM;
      if fee < feeMin then feeMin
      else if fee > feeMax then feeMax
      else fee
  }

  /** The character of a decimal digit. */
  function DigitChar(d: nat): (c: char)
    requires d < 10
    ensures '0' <= c <= '9'
  {
    (d + '0' as int) as char
  }

  /** `n` written in decimal, as BigNumber's `valueOf` writes an integer
      below 1e21. */
  function Decimal(n: nat): (s: string)
    ensures 1 <= |s| && (|s| == 1 <==> n < 10)
    ensures forall i :: 0 <= i < |s| ==> '0' <= s[i] <= '9'
  {
    if n < 10 then [DigitChar(n)] else Decimal(n / 10) + [DigitChar(n % 10)]
  }

  /** JavaScript's `<` on two strings: code unit by code unit, and a proper
      prefix is smaller. */
  function JsStringLess(s: string, t: string): bool
    decreases |s|
  {
    if |s| == 0 then |t| > 0
    else if |t| == 0 then false
    else if s[0] != t[0] then s[0] < t[0]
    else JsStringLess(s[1..], t[1..])
  }

  /** Two strings of the same length that end in one more character compare
      by their beginnings first and by that character last. */
  lemma {:induction false} JsStringLessSnoc(x: string, y: string, c: char, d: char)
    requires |x| == |y|
    ensures JsStringLess(x + [c], y + [d]) <==> JsStringLess(x, y) || (x == y && c < d)
    decreases |x|
  {
    if |x| > 0 {
      assert (x + [c])[1..] == x[1..] + [c];
      assert (y + [d])[1..] == y[1..] + [d];
      JsStringLessSnoc(x[1..], y[1..], c, d);
      if x[0] == y[0] {
        assert x == [x[0]] + x[1..] && y == [y[0]] + y[1..];
      }
    }
  }

  /** Decimals with the same number of digits compare as strings exactly as
      their values compare as numbers. */
  lemma {:induction false} DecimalOrder(a: nat, b: nat)
    requires |Decimal(a)| == |Decimal(b)|
    ensures JsStringLess(Decimal(a), Decimal(b)) <==> a < b
    ensures Decimal(a) == Decimal(b) <==> a == b
    decreases a
  {
    if a >= 10 {
      DecimalOrder(a / 10, b / 10);
      JsStringLessSnoc(Decimal(a / 10), Decimal(b / 10), DigitChar(a % 10), DigitChar(b % 10));
      if Decimal(a) == Decimal(b) {
        assert Decimal(a)[..|Decimal(a)| - 1] == Decimal(a / 10);
        assert Decimal(b)[..|Decimal(b)| - 1] == Decimal(b / 10);
      }
    }
  }

  /** The fee as `getTransferFee` predicts it. It looks up the sender's
      permission twice, so an exempt recipient does not waive the fee; and it
      clamps with `<` and `>` on BigNumber values, which JavaScript compares
      through their decimal strings. */
  function HelperTransferFee(amount: nat, feePt: nat, feeMin: nat, feeMax: nat, fromExempt: bool, toExempt: bool): (fee: nat)
    ensures fromExempt ==> fee == 0
    ensures !fromExempt ==> fee == feeMin || fee == feeMax || fee == amount * feePt / PPM
  {
    var fromAllowed, toAllowed := fromExempt, fromExempt;
    if fromAllowed || toAllowed then 0
    else
      var fee := amount * feePt / PPM;
      if JsStringLess(Decimal(fee), Decimal(feeMin)) then feeMin
      else if JsStringLess(Decimal(feeMax), Decimal(fee)) then feeMax
      else fee
  }

  /** When the floor fee has as many digits as both bounds, the string
      comparisons order the values correctly, and the helper's fee is the
      contract's fee for a transfer whose parties share the sender's
      exemption. */
  lemma HelperFeeAgreesOnEqualDigits(amount: nat, feePt: nat, feeMin: nat, feeMax: nat, fromExempt: bool, toExempt: bool)
    requires |Decimal(amount * feePt / PPM)| == |Decimal(feeMin)| == |Decimal(feeMax)|
    ensures HelperTransferFee(amount, feePt, feeMin, feeMax, fromExempt, toExempt)
            == TransferFee(amount, feePt, feeMin, feeMax, fromExempt, fromExempt)
  {
    DecimalOrder(amount * feePt / PPM, feeMin);
    DecimalOrder(feeMax, amount * feePt / PPM);
  }

  /** With the deployed fee parameters (0.2%, min 200, max 50000), a transfer
      of 100000 from a plain account to an exempt one costs no fee, but the
      helper predicts the minimum fee. */
  lemma HelperFeeMissesExemptRecipient()
    ensures TransferFee(100000, 2000, 200, 50000, false, true) == 0
    ensures HelperTransferFee(100000, 2000, 200, 50000, false, true) == 200
  {
    assert 100000 * 2000 / PPM == 200;
    assert Decimal(200) == "200" by {
      assert Decimal(2) == "2";
      assert Decimal(20) == "20";
    }
    assert Decimal(50000) == "50000" by {
      assert Decimal(5) == "5";
      assert Decimal(50) == "50";
      assert Decimal(500) == "500";
      assert Decimal(5000) == "5000";
    }
  }

  /** With the deployed fee parameters, string comparison misplaces the
      clamp: a transfer of 500000 has floor fee 1000, and "1000" < "200", so
      the helper predicts 200; a transfer of 3000000 has floor fee 6000, and
      "6000" > "50000", so the helper predicts 50000. */
  lemma HelperFeeComparesDigits()
    ensures TransferFee(500000, 2000, 200, 50000, false, false) == 1000
    ensures HelperTransferFee(500000, 2000, 200, 50000, false, false) == 200
    ensures TransferFee(3000000, 2000, 200, 50000, false, false) == 6000
    ensures HelperTransferFee(3000000, 2000, 200, 50000, false, false) == 50000
  {
    assert 500000 * 2000 / PPM == 1000;
    assert 3000000 * 2000 / PPM == 6000;
    assert Decimal(1000) == "1000" by {
      assert Decimal(1) == "1";
      assert Decimal(10) == "10";
      assert Decimal(100) == "100";
    }
    assert Decimal(6000) == "6000" by {
      assert Decimal(6) == "6";
      assert Decimal(60) == "60";
      assert Decimal(600) == "600";
    }
    assert Decimal(200) == "200" by {
      assert Decimal(2) == "2";
      assert Decimal(20) == "20";
    }
    assert Decimal(50000) == "50000" by {
      assert Decimal(5) == "5";
      assert Decimal(50) == "50";
      assert Decimal(500) == "500";
      assert Decimal(5000) == "5000";
    }
  }

  /** The two events of a transfer: AugmintTransfer(from, to, amount, fee,
      narrative) and the ERC20 Transfer(from, to, amount). */
  function TransferEvents(from: Address, to: Address, amount: nat, fee: nat, narrative: string): (es: seq<TokenEvent>)
    ensures |es| == 2
    ensures es[0].AugmintTransfer? && es[0].from == from && es[0].to == to
    ensures es[0].amount == amount && es[0].fee == fee && es[0].narrative == narrative
    ensures es[1].Transfer? && es[1].from == from && es[1].to == to && es[1].amount == amount
  {
    [AugmintTransfer(from, to, amount, fee, narrative), Transfer(from, to, amount)]
  }

  /** Balances after a transfer: the sender pays the fee to the fee account,
      then `amount` to the recipient. */
  function AfterTransfer(b: map<Address, nat>, from: Address, to: Address, feeAccount: Address, amount: nat, fee: nat): (b': map<Address, nat>)
    requires Bal(b, from) >= amount + fee
    ensures Total(b') == Total(b)
    ensures from != to && from != feeAccount ==> Bal(b', from) == Bal(b, from) - amount - fee
    ensures from != to && to != feeAccount ==> Bal(b', to) == Bal(b, to) + amount
    ensures from != feeAccount && to != feeAccount ==> Bal(b', feeAccount) == Bal(b, feeAccount) + fee
    ensures Bal(b', to) >= amount
    ensures forall a :: a != from && a != to && a != feeAccount ==> Bal(b', a) == Bal(b, a)
  {
    var paidFee := Moved(b, from, feeAccount, fee);
    Moved(paidFee, from, to, amount)
  }

  /** Balances after minting `amount` to `to`. */
  function AfterMint(b: map<Address, nat>, to: Address, amount: nat): (b': map<Address, nat>)
    ensures Total(b') == Total(b) + amount
    ensures Bal(b', to) == Bal(b, to) + amount
    ensures forall a :: a != to ==> Bal(b', a) == Bal(b, a)
  {
    TotalUpdate(b, to, Bal(b, to) + amount);
    b[to := Bal(b, to) + amount]
  }

  /** Balances after burning `amount` held by `from`. */
  function AfterBurn(b: map<Address, nat>, from: Address, amount: nat): (b': map<Address, nat>)
    requires Bal(b, from) >= amount
    ensures Total(b') + amount == Total(b)
    ensures Bal(b', from) == Bal(b, from) - amount
    ensures forall a :: a != from ==> Bal(b', a) == Bal(b, a)
  {
    var v: nat := Bal(b, from) - amount;
    TotalUpdate(b, from, v);
    b[from := v]
  }

  class AugmintToken {
    /** Address of this token contract. */
    const address: Address
    /** Account that receives transfer fees. */
    const feeAccount: Address
    /** Fee parameters: ppm of the amount, minimum and maximum. */
    const transferFeePt: nat
    const transferFeeMin: nat
    const transferFeeMax: nat
    /** Holders of the NoFeeTransferContracts permission. */
    var noFeeTransfer: set<Address>
    var balances: map<Address, nat>
    /** allowed[(owner, spender)]: what spender may still move from owner. */
    var allowed: map<(Address, Address), nat>
    var totalSupply: nat
    /** Events emitted so far, oldest first. */
    var log: seq<TokenEvent>

    /** The supply is the sum of all balances. */
    ghost predicate Valid()
      reads this
    {
      totalSupply == Total(balances)
    }

    constructor (address: Address, feeAccount: Address, feePt: nat, feeMin: nat, feeMax: nat, noFeeTransfer: set<Address>)
      ensures Valid()
      ensures this.address == address && this.feeAccount == feeAccount
      ensures transferFeePt == feePt && transferFeeMin == feeMin && transferFeeMax == feeMax
      ensures this.noFeeTransfer == noFeeTransfer
      ensures balances == map[] && allowed == map[] && totalSupply == 0 && log == []
    {
      this.address := address;
      this.feeAccount := feeAccount;
      transferFeePt, transferFeeMin, transferFeeMax := feePt, feeMin, feeMax;
      this.noFeeTransfer := noFeeTransfer;
      balances, allowed, totalSupply, log := map[], map[], 0, [];
    }

    function BalanceOf(a: Address): nat
      reads this
    {
      Bal(balances, a)
    }

    function Allowance(owner: Address, spender: Address): nat
      reads this
    {
      if (owner, spender) in allowed then allowed[(owner, spender)] else 0
    }

    /** The fee the contract charges for moving `amount` from `from` to `to`. */
    function FeeFor(from: Address, to: Address, amount: nat): nat
      reads this
    {
      TransferFee(amount, transferFeePt, transferFeeMin, transferFeeMax, from in noFeeTransfer, to in noFeeTransfer)
    }

    /** `transferWithNarrative(to, amount, narrative)` sent by `from`. */
    method TransferWithNarrative(from: Address, to: Address, amount: nat, narrative: string) returns (r: Outcome)
      requires Valid()
      modifies this
      ensures Valid()
      ensures var fee := old(FeeFor(from, to, amount));
        if old(BalanceOf(from)) < amount + fee then
          r == Fail(InsufficientBalance) && balances == old(balances) && log == old(log)
        else
          && r == Pass
          && balances == AfterTransfer(old(balances), from, to, feeAccount, amount, fee)
          && log == old(log) + TransferEvents(from, to, amount, fee, narrative)
      ensures totalSupply == old(totalSupply) && allowed == old(allowed) && noFeeTransfer == old(noFeeTransfer)
    {
      var fee := FeeFor(from, to, amount);
      if BalanceOf(from) < amount + fee {
        return Fail(InsufficientBalance);
      }
      balances := AfterTransfer(balances, from, to, feeAccount, amount, fee);
      log := log + TransferEvents(from, to, amount, fee, narrative);
      r := Pass;
    }

    /** `transfer(to, amount)`: a transfer with the empty narrative. */
    method Transfer(from: Address, to: Address, amount: nat) returns (r: Outcome)
      requires Valid()
      modifies this
      ensures Valid()
      ensures var fee := old(FeeFor(from, to, amount));
        if old(BalanceOf(from)) < amount + fee then
          r == Fail(InsufficientBalance) && balances == old(balances) && log == old(log)
        else
          && r == Pass
          && balances == AfterTransfer(old(balances), from, to, feeAccount, amount, fee)
          && log == old(log) + TransferEvents(from, to, amount, fee, "")
      ensures totalSupply == old(totalSupply) && allowed == old(allowed) && noFeeTransfer == old(noFeeTransfer)
    {
      r := TransferWithNarrative(from, to, amount, "");
    }

    /** `approve(spender, value)` sent by `owner`: the allowance becomes
      exactly `value`, whatever it was. */
    method Approve(owner: Address, spender: Address, value: nat)
      requires Valid()
      modifies this
      ensures Valid()
      ensures allowed == old(allowed)[(owner, spender) := value]
      ensures Allowance(owner, spender) == value
      ensures log == old(log) + [Approval(owner, spender, value)]
      ensures balances == old(balances) && totalSupply == old(totalSupply) && noFeeTransfer == old(noFeeTransfer)
    {
      allowed := allowed[(owner, spender) := value];
      log := log + [Approval(owner, spender, value)];
    }

    /** `transferFromWithNarrative(from, to, amount, narrative)` sent by
      `spender`: the allowance drops by `amount` (not by the fee), and the
      balances move as in a transfer from `from`. */
    method TransferFromWithNarrative(spender: Address, from: Address, to: Address, amount: nat, narrative: string)
      returns (r: Outcome)
      requires Valid()
      modifies this
      ensures Valid()
      ensures var fee := old(FeeFor(from, to, amount));
        if old(Allowance(from, spender)) < amount then
          r == Fail(InsufficientAllowance) && balances == old(balances) && allowed == old(allowed) && log == old(log)
        else if old(BalanceOf(from)) < amount + fee then
          r == Fail(InsufficientBalance) && balances == old(balances) && allowed == old(allowed) && log == old(log)
        else
          && r == Pass
          && Allowance(from, spender) == old(Allowance(from, spender)) - amount
          && allowed == old(allowed)[(from, spender) := old(Allowance(from, spender)) - amount]
          && balances == AfterTransfer(old(balances), from, to, feeAccount, amount, fee)
          && log == old(log) + TransferEvents(from, to, amount, fee, narrative)
      ensures totalSupply == old(totalSupply) && noFeeTransfer == old(noFeeTransfer)
    {
      var allowance := Allowance(from, spender);
      if allowance < amount {
        return Fail(InsufficientAllowance);
      }
      var fee := FeeFor(from, to, amount);
      if BalanceOf(from) < amount + fee {
        return Fail(InsufficientBalance);
      }
      allowed := allowed[(from, spender) := allowance - amount];
      balances := AfterTransfer(balances, from, to, feeAccount, amount, fee);
      log := log + TransferEvents(from, to, amount, fee, narrative);
      r := Pass;
    }

    /** `transferFrom(from, to, amount)`: with the empty narrative. */
    method TransferFrom(spender: Address, from: Address, to: Address, amount: nat) returns (r: Outcome)
      requires Valid()
      modifies this
      ensures Valid()
      ensures var fee := old(FeeFor(from, to, amount));
        if old(Allowance(from, spender)) < amount then
          r == Fail(InsufficientAllowance) && balances == old(balances) && allowed == old(allowed) && log == old(log)
        else if old(BalanceOf(from)) < amount + fee then
          r == Fail(InsufficientBalance) && balances == old(balances) && allowed == old(allowed) && log == old(log)
        else
          && r == Pass
          && allowed == old(allowed)[(from, spender) := old(Allowance(from, spender)) - amount]
          && balances == AfterTransfer(old(balances), from, to, feeAccount, amount, fee)
          && log == old(log) + TransferEvents(from, to, amount, fee, "")
      ensures totalSupply == old(totalSupply) && noFeeTransfer == old(noFeeTransfer)
    {
      r := TransferFromWithNarrative(spender, from, to, amount, "");
    }

    /** `issueTo(to, amount)`: mint from the zero address, without fee. */
    method IssueTo(to: Address, amount: nat)
      requires Valid()
      modifies this
      ensures Valid()
      ensures balances == AfterMint(old(balances), to, amount)
      ensures totalSupply == old(totalSupply) + amount
      ensures log == old(log) + TransferEvents(ZeroAddress, to, amount, 0, "")
      ensures allowed == old(allowed) && noFeeTransfer == old(noFeeTransfer)
    {
      balances := AfterMint(balances, to, amount);
      totalSupply := totalSupply + amount;
      log := log + TransferEvents(ZeroAddress, to, amount, 0, "");
    }

    /** `burn(amount)` by `from`: destroys tokens `from` holds. */
    method Burn(from: Address, amount: nat)
      requires Valid()
      requires BalanceOf(from) >= amount
      modifies this
      ensures Valid()
      ensures balances == AfterBurn(old(balances), from, amount)
      ensures totalSupply == old(totalSupply) - amount
      ensures log == old(log) + TransferEvents(from, ZeroAddress, amount, 0, "")
      ensures allowed == old(allowed) && noFeeTransfer == old(noFeeTransfer)
    {
      balances := AfterBurn(balances, from, amount);
      totalSupply := totalSupply - amount;
      log := log + TransferEvents(from, ZeroAddress, amount, 0, "");
    }
  }
}
