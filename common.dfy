/** Shared vocabulary of the Augmint contracts: account addresses, the
    parts-per-million scale, the failure taxonomy and the sum of a balance map. */
module Common {

  /** An Ethereum account or contract address. */
  type Address = nat

  /** The zero address: the `from` of a mint and the `to` of a burn. */
  const ZeroAddress: Address := 0

  /** Parts-per-million scale of every rate and ratio (1_000_000 = 100%). */
  const PPM: nat := 1000000

  /** Why a contract call reverts. */
  datatype Error =
    | PermissionDenied       // caller lacks the role the call checks
    | InvalidState           // loan not open, order missing, ...
    | ArithmeticBounds       // amount out of range, prices that do not cross, SafeMath underflow
    | InvariantViolation     // the monetary supervisor refuses the loan-to-deposit check
    | InsufficientBalance    // sender cannot cover amount (+ fee)
    | InsufficientAllowance  // delegated spend above the approved allowance
    | NotFound               // no loan, product or order with that id

  /** Outcome of a call that returns nothing: it either commits or reverts. */
  datatype Outcome = Pass | Fail(error: Error)

  /** Outcome of a call that returns a value. */
  datatype Result<T> = Ok(value: T) | Err(error: Error)

  /** Balance of `a` in a ledger map; an absent key holds zero. */
  function Bal(m: map<Address, nat>, a: Address): nat {
    if a in m then m[a] else 0
  }

  /** Some key of a non-empty map. */
  ghost function Pick(m: map<Address, nat>): (k: Address)
    requires |m| != 0
    ensures k in m
  {
    assert m.Keys != {};
    var k :| k in m; k
  }

  /** Sum of all balances of a ledger map. */
  ghost function Total(m: map<Address, nat>): nat
    decreases |m|
  {
    if |m| == 0 then 0
    else
      var k := Pick(m);
      assert |(m - {k}).Keys| == |m.Keys - {k}| == |m.Keys| - 1;
      m[k] + Total(m - {k})
  }

  /** Removing one key removes exactly its balance from the total. */
  lemma {:induction false} TotalRemove(m: map<Address, nat>, k: Address)
    requires k in m
    ensures Total(m) == m[k] + Total(m - {k})
    decreases |m|
  {
    var j := Pick(m);
    if j != k {
      var mj, mk := m - {j}, m - {k};
      assert |mj.Keys| == |m.Keys - {j}| == |m.Keys| - 1;
      assert |mk.Keys| == |m.Keys - {k}| == |m.Keys| - 1;
      assert k in mj && j in mk;
      TotalRemove(mj, k);
      TotalRemove(mk, j);
      assert mj - {k} == mk - {j};
    }
  }

  /** Overwriting one balance changes the total by exactly the difference. */
  lemma TotalUpdate(m: map<Address, nat>, k: Address, v: nat)
    ensures Total(m[k := v]) + Bal(m, k) == Total(m) + v
  {
    var m' := m[k := v];
    TotalRemove(m', k);
    if k in m {
      TotalRemove(m, k);
      assert m' - {k} == m - {k};
    } else {
      assert m' - {k} == m;
    }
  }

  /** Balances after moving `x` from `from` to `to` (a plain value transfer). */
  function Moved(b: map<Address, nat>, from: Address, to: Address, x: nat): (b': map<Address, nat>)
    requires Bal(b, from) >= x
    ensures Total(b') == Total(b)
    ensures from != to ==> Bal(b', from) == Bal(b, from) - x && Bal(b', to) == Bal(b, to) + x
    ensures from == to ==> Bal(b', from) == Bal(b, from)
    ensures Bal(b', to) >= x
    ensures forall a :: a != from && a != to ==> Bal(b', a) == Bal(b, a)
  {
    var v1: nat := Bal(b, from) - x;
    var b1 := b[from := v1];
    var v2: nat := Bal(b1, to) + x;
    assert Total(b1[to := v2]) == Total(b) by {
      TotalUpdate(b, from, v1);
      TotalUpdate(b1, to, v2);
    }
    b1[to := v2]
  }
}
