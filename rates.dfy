/** The Rates table of the rate oracle: one rate per currency symbol, with
    the time it was last set (test/helpers/ratesTestHelpers.js). */
module Rates {

  /** A currency symbol (a `bytes32` in the contract). */
  type Symbol = seq<char>

  datatype RateInfo = RateInfo(rate: nat, lastUpdated: nat)

  datatype RateEvent = RateChanged(symbol: Symbol, newRate: nat)

  /** The table after setting the rates of `symbols` in order: a symbol named
      more than once keeps its last rate. */
  function UpdatedRates(rates: map<Symbol, RateInfo>, symbols: seq<Symbol>, newRates: seq<nat>, now: nat)
    : map<Symbol, RateInfo>
    requires |symbols| == |newRates|
    decreases |symbols|
  {
    if |symbols| == 0 then rates
    else
      var n := |symbols| - 1;
      UpdatedRates(rates, symbols[..n], newRates[..n], now)[symbols[n] := RateInfo(newRates[n], now)]
  }

  /** The events of setting `symbols` in order: one `RateChanged` per symbol. */
  function RateEvents(symbols: seq<Symbol>, newRates: seq<nat>): (events: seq<RateEvent>)
    requires |symbols| == |newRates|
    decreases |symbols|
  {
    if |symbols| == 0 then []
    else
      var n := |symbols| - 1;
      RateEvents(symbols[..n], newRates[..n]) + [RateChanged(symbols[n], newRates[n])]
  }

  /** Exactly one event per symbol, and the i-th event carries the i-th
      symbol and the i-th new rate. */
  lemma {:induction false} RateEventsMatch(symbols: seq<Symbol>, newRates: seq<nat>)
    requires |symbols| == |newRates|
    ensures |RateEvents(symbols, newRates)| == |symbols|
    ensures forall i :: 0 <= i < |symbols| ==>
      RateEvents(symbols, newRates)[i] == RateChanged(symbols[i], newRates[i])
    decreases |symbols|
  {
    if |symbols| > 0 {
      var n := |symbols| - 1;
      RateEventsMatch(symbols[..n], newRates[..n]);
    }
  }

  /** After the update a symbol that was set holds the rate of its last
      occurrence, stamped with `now`; every other symbol keeps its entry. */
  lemma {:induction false} UpdatedRatesLastWins(rates: map<Symbol, RateInfo>, symbols: seq<Symbol>, newRates: seq<nat>,
                                                 now: nat, i: nat)
    requires |symbols| == |newRates| && i < |symbols|
    requires forall j :: i < j < |symbols| ==> symbols[j] != symbols[i]
    ensures symbols[i] in UpdatedRates(rates, symbols, newRates, now)
    ensures UpdatedRates(rates, symbols, newRates, now)[symbols[i]] == RateInfo(newRates[i], now)
    decreases |symbols|
  {
    var n := |symbols| - 1;
    if i < n {
      UpdatedRatesLastWins(rates, symbols[..n], newRates[..n], now, i);
    }
  }

  /** Symbols not named keep their entry (or stay absent). */
  lemma {:induction false} UpdatedRatesElsewhere(rates: map<Symbol, RateInfo>, symbols: seq<Symbol>, newRates: seq<nat>,
                                                  now: nat, s: Symbol)
    requires |symbols| == |newRates| && s !in symbols
    ensures s in UpdatedRates(rates, symbols, newRates, now) <==> s in rates
    ensures s in rates ==> UpdatedRates(rates, symbols, newRates, now)[s] == rates[s]
    decreases |symbols|
  {
    if |symbols| > 0 {
      var n := |symbols| - 1;
      assert s !in symbols[..n];
      UpdatedRatesElsewhere(rates, symbols[..n], newRates[..n], now, s);
    }
  }

  /** With distinct symbols every symbol gets exactly its own new rate and
      the current time. */
  lemma UpdatedRatesDistinct(rates: map<Symbol, RateInfo>, symbols: seq<Symbol>, newRates: seq<nat>, now: nat)
    requires |symbols| == |newRates|
    requires forall i, j :: 0 <= i < j < |symbols| ==> symbols[i] != symbols[j]
    ensures forall i :: 0 <= i < |symbols| ==>
      && symbols[i] in UpdatedRates(rates, symbols, newRates, now)
      && UpdatedRates(rates, symbols, newRates, now)[symbols[i]].rate == newRates[i]
      && UpdatedRates(rates, symbols, newRates, now)[symbols[i]].lastUpdated == now
  {
    forall i | 0 <= i < |symbols|
      ensures && symbols[i] in UpdatedRates(rates, symbols, newRates, now)
              && UpdatedRates(rates, symbols, newRates, now)[symbols[i]] == RateInfo(newRates[i], now)
    {
      UpdatedRatesLastWins(rates, symbols, newRates, now, i);
    }
  }

  class RatesTable {
    /** Rate and last update time by symbol. */
    var rates: map<Symbol, RateInfo>
    var log: seq<RateEvent>

    constructor ()
      ensures rates == map[] && log == []
    {
      rates, log := map[], [];
    }

    /** `setRate(symbol, newRate)` at time `now`. */
    method SetRate(symbol: Symbol, newRate: nat, now: nat)
      modifies this
      ensures rates == old(rates)[symbol := RateInfo(newRate, now)]
      ensures log == old(log) + [RateChanged(symbol, newRate)]
    {
      rates := rates[symbol := RateInfo(newRate, now)];
      log := log + [RateChanged(symbol, newRate)];
    }

    /** `setMultipleRates(symbols, newRates)` at time `now`: reverts unless
      both lists have the same length, then sets each symbol in turn. */
    method SetMultipleRates(symbols: seq<Symbol>, newRates: seq<nat>, now: nat) returns (ok: bool)
      modifies this
      ensures ok <==> |symbols| == |newRates|
      ensures !ok ==> rates == old(rates) && log == old(log)
      ensures ok ==> rates == UpdatedRates(old(rates), symbols, newRates, now)
      ensures ok ==> log == old(log) + RateEvents(symbols, newRates)
    {
      if |symbols| != |newRates| {
        return false;
      }
      var i := 0;
      while i < |symbols|
        invariant 0 <= i <= |symbols|
        invariant rates == UpdatedRates(old(rates), symbols[..i], newRates[..i], now)
        invariant log == old(log) + RateEvents(symbols[..i], newRates[..i])
      {
        assert symbols[..i + 1][..i] == symbols[..i] && newRates[..i + 1][..i] == newRates[..i];
        SetRate(symbols[i], newRates[i], now);
        i := i + 1;
      }
      assert symbols[..i] == symbols && newRates[..i] == newRates;
      ok := true;
    }
  }
}
