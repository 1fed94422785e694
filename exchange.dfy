/** The Exchange's order book: buy orders offer wei for tokens, sell orders
    offer tokens for wei, and `matchOrders` fills a crossing pair at the
    midpoint of the two prices (test/exchangeMatching.js). */
module Exchange {
  import opened Common

  datatype OrderType = TokenBuy | TokenSell

  /** An open order. `amount` is what remains: wei for a buy order, tokens
      for a sell order. */
  datatype Order = Order(maker: Address, orderType: OrderType, amount: nat, price: nat)

  /** Amounts that change hands in one match. */
  datatype Fill = Fill(tradedWei: nat, tradedTokens: nat)

  datatype ExchangeEvent =
    | NewOrder(orderId: nat, maker: Address, orderType: OrderType, amount: nat, price: nat)
    | OrderFill(buyTokenMaker: Address, sellTokenMaker: Address, buyTokenOrderId: nat, sellTokenOrderId: nat,
                price: nat, weiAmount: nat, tokenAmount: nat)

  /** The price a crossing pair trades at: the midpoint of the two prices,
      rounded down, which lies between them. */
  function MatchPrice(buy: Order, sell: Order): (price: nat)
    ensures sell.price <= buy.price ==> sell.price <= price <= buy.price
    ensures sell.price < buy.price - 1 ==> sell.price < price < buy.price
  {
    (buy.price + sell.price) / 2
  }

  /** The amounts `matchOrders` trades between `buy` and `sell`, or why it
      reverts. `tokenToWei` and `weiToToken` are the price conversions, given
      the amount and the price. The whole sell order is taken if the buy order
      can pay for it; otherwise the whole buy order is spent. */
  function MatchFill(buy: Order, sell: Order, tokenToWei: (nat, nat) -> nat, weiToToken: (nat, nat) -> nat)
    : (r: Result<Fill>)
    ensures buy.price < sell.price ==> r == Err(ArithmeticBounds)
    ensures r.Ok? ==>
      && r.value.tradedWei <= buy.amount
      && r.value.tradedTokens <= sell.amount
      && (r.value.tradedWei == buy.amount || r.value.tradedTokens == sell.amount)
    ensures var price := MatchPrice(buy, sell);
      buy.price >= sell.price && tokenToWei(sell.amount, price) <= buy.amount ==>
        r == Ok(Fill(tokenToWei(sell.amount, price), sell.amount))
    ensures var price := MatchPrice(buy, sell);
      buy.price >= sell.price && tokenToWei(sell.amount, price) > buy.amount ==>
        if weiToToken(buy.amount, price) <= sell.amount
        then r == Ok(Fill(buy.amount, weiToToken(buy.amount, price)))
        else r == Err(ArithmeticBounds)
  {
    if buy.price < sell.price then Err(ArithmeticBounds)
    else
      var price := MatchPrice(buy, sell);
      var sellWei := tokenToWei(sell.amount, price);
      if sellWei <= buy.amount then Ok(Fill(sellWei, sell.amount))
      else
        var tokens := weiToToken(buy.amount, price);
        if tokens <= sell.amount then Ok(Fill(buy.amount, tokens)) else Err(ArithmeticBounds)
  }

  /** Who makes the orders plays no part in matching them: a maker's buy
      order matches the same maker's sell order as it would anyone's. */
  lemma MatchIgnoresMakers(buy: Order, sell: Order, buyMaker: Address, sellMaker: Address,
                           tokenToWei: (nat, nat) -> nat, weiToToken: (nat, nat) -> nat)
    ensures MatchFill(buy.(maker := buyMaker), sell.(maker := sellMaker), tokenToWei, weiToToken)
            == MatchFill(buy, sell, tokenToWei, weiToToken)
  {
  }

  /** One side of the book after `id` trades `traded` of its amount: the
      order is kept with the remainder, or removed once nothing remains. */
  function Reduced(book: map<nat, Order>, id: nat, traded: nat): (b: map<nat, Order>)
    requires id in book && traded <= book[id].amount
    ensures id in b <==> traded < book[id].amount
    ensures id in b ==> b[id] == book[id].(amount := book[id].amount - traded)
    ensures |b| == if traded < book[id].amount then |book| else |book| - 1
    ensures forall k :: k != id ==> (k in b <==> k in book) && (k in book ==> b[k] == book[k])
  {
    if traded < book[id].amount then book[id := book[id].(amount := book[id].amount - traded)]
    else book - {id}
  }

  /** The three ways a match can leave the book, by how the sell order's
      value at the match price compares with the buy order: a smaller sell
      order is removed and the buy order keeps a remainder; equal orders are
      both removed; a smaller buy order is removed and the sell order stays
      unless the buy order's tokens exactly exhaust it. */
  lemma MatchRemovals(buys: map<nat, Order>, sells: map<nat, Order>, buyId: nat, sellId: nat,
                      tokenToWei: (nat, nat) -> nat, weiToToken: (nat, nat) -> nat)
    requires buyId in buys && sellId in sells
    requires MatchFill(buys[buyId], sells[sellId], tokenToWei, weiToToken).Ok?
    ensures var buy, sell := buys[buyId], sells[sellId];
      var f := MatchFill(buy, sell, tokenToWei, weiToToken).value;
      var price := MatchPrice(buy, sell);
      var sellWei := tokenToWei(sell.amount, price);
      var buys', sells' := Reduced(buys, buyId, f.tradedWei), Reduced(sells, sellId, f.tradedTokens);
      && (sellWei < buy.amount ==> buyId in buys' && sellId !in sells' && |buys'| == |buys| && |sells'| == |sells| - 1)
      && (sellWei == buy.amount ==> buyId !in buys' && sellId !in sells' && |buys'| == |buys| - 1 && |sells'| == |sells| - 1)
      && (sellWei > buy.amount ==>
            && buyId !in buys' && |buys'| == |buys| - 1
            && (sellId in sells' <==> weiToToken(buy.amount, price) < sell.amount))
  {
  }

  /** Wei worth `tokens` at `price`, a price being token units per ether. */
  function WeiAt(tokens: nat, price: nat): nat {
    if price == 0 then 0 else tokens * 1000000000000000000 / price
  }

  /** Tokens worth `wei` at `price`. */
  function TokensAt(wei: nat, price: nat): nat {
    wei * price / 1000000000000000000
  }

  /** Open buy and sell orders left after matching `buy` (id 0) with `sell`
      (id 1) on an otherwise empty book, or why the match reverts. */
  function CountsAfterMatch(buy: Order, sell: Order, tokenToWei: (nat, nat) -> nat, weiToToken: (nat, nat) -> nat)
    : (counts: Result<(nat, nat)>)
    ensures counts.Ok? <==> MatchFill(buy, sell, tokenToWei, weiToToken).Ok?
    ensures counts.Ok? ==> counts.value.0 <= 1 && counts.value.1 <= 1 && counts.value.0 + counts.value.1 <= 1
  {
    match MatchFill(buy, sell, tokenToWei, weiToToken)
    case Err(e) => Err(e)
    case Ok(f) => Ok((|Reduced(map[0 := buy], 0, f.tradedWei)|, |Reduced(map[1 := sell], 1, f.tradedTokens)|))
  }

  /** The matching tests, with wei and tokens converted at the match price:
      a 0.535367 ether buy against 9558237 tokens leaves no buy order and one
      sell order; a 1.750401 ether buy against 5614113 tokens leaves one buy
      order and no sell order; a 1 ether buy at 11000000 against 10000000
      tokens at 9000000 leaves neither; a buy at 11000 does not match a sell
      at 11500. */
  lemma MatchingTestsAtMidpoint()
    ensures CountsAfterMatch(Order(1, TokenBuy, 535367000000000000, 11000000), Order(2, TokenSell, 9558237, 9000000),
                             WeiAt, TokensAt) == Ok((0, 1))
    ensures CountsAfterMatch(Order(1, TokenBuy, 1750401000000000000, 11000000), Order(2, TokenSell, 5614113, 9000000),
                             WeiAt, TokensAt) == Ok((1, 0))
    ensures CountsAfterMatch(Order(1, TokenBuy, 1000000000000000000, 11000000), Order(1, TokenSell, 10000000, 9000000),
                             WeiAt, TokensAt) == Ok((0, 0))
    ensures CountsAfterMatch(Order(1, TokenBuy, 1750401000000000000, 11000), Order(1, TokenSell, 5614113, 11500),
                             WeiAt, TokensAt).Err?
  {
    assert WeiAt(9558237, 10000000) == 955823700000000000;
    assert TokensAt(535367000000000000, 10000000) == 5353670;
    assert WeiAt(5614113, 10000000) == 561411300000000000;
    assert WeiAt(10000000, 10000000) == 1000000000000000000;
  }

  /** One side of the book: its orders are of type `t`, have something left
      and a positive price, and have ids below `nextOrderId`. */
  ghost predicate SideValid(book: map<nat, Order>, t: OrderType, nextOrderId: nat) {
    forall id :: id in book ==>
      id < nextOrderId && book[id].orderType == t && book[id].amount > 0 && book[id].price > 0
  }

  /** Trading part of an order keeps its side valid and adds no id. */
  lemma ReducedSideValid(book: map<nat, Order>, t: OrderType, nextOrderId: nat, id: nat, traded: nat)
    requires SideValid(book, t, nextOrderId) && id in book && traded <= book[id].amount
    ensures SideValid(Reduced(book, id, traded), t, nextOrderId)
    ensures Reduced(book, id, traded).Keys <= book.Keys
  {
  }

  class Exchange {
    /** Open buy-token orders by id. */
    var buyOrders: map<nat, Order>
    /** Open sell-token orders by id. */
    var sellOrders: map<nat, Order>
    /** The id the next order gets. */
    var nextOrderId: nat
    var log: seq<ExchangeEvent>

    /** Every open order sits on its own side, has something left and a
      positive price, and has an id below `nextOrderId`; no id is on both sides. */
    ghost predicate Valid()
      reads this
    {
      && SideValid(buyOrders, TokenBuy, nextOrderId)
      && SideValid(sellOrders, TokenSell, nextOrderId)
      && buyOrders.Keys !! sellOrders.Keys
    }

    constructor ()
      ensures Valid()
      ensures buyOrders == map[] && sellOrders == map[] && nextOrderId == 0 && log == []
    {
      buyOrders, sellOrders, nextOrderId, log := map[], map[], 0, [];
    }

    /** Number of open buy orders (`buyCount` of the exchange's state). */
    function BuyCount(): nat
      reads this
    {
      |buyOrders|
    }

    /** Number of open sell orders (`sellCount` of the exchange's state). */
    function SellCount(): nat
      reads this
    {
      |sellOrders|
    }

    /** `placeBuyTokenOrder` / `placeSellTokenOrder` by `maker`: a positive
      amount at a positive price becomes a new order with a fresh id. */
    method NewOrder(maker: Address, orderType: OrderType, amount: nat, price: nat) returns (r: Result<nat>)
      requires Valid()
      modifies this
      ensures Valid()
      ensures amount == 0 || price == 0 ==>
        && r == Err(ArithmeticBounds)
        && buyOrders == old(buyOrders) && sellOrders == old(sellOrders)
        && nextOrderId == old(nextOrderId) && log == old(log)
      ensures amount > 0 && price > 0 ==>
        var id := old(nextOrderId);
        var o := Order(maker, orderType, amount, price);
        && r == Ok(id)
        && id !in old(buyOrders) && id !in old(sellOrders)
        && nextOrderId == id + 1
        && (orderType == TokenBuy ==> buyOrders == old(buyOrders)[id := o] && sellOrders == old(sellOrders))
        && (orderType == TokenSell ==> sellOrders == old(sellOrders)[id := o] && buyOrders == old(buyOrders))
        && log == old(log) + [ExchangeEvent.NewOrder(id, maker, orderType, amount, price)]
    {
      if amount == 0 || price == 0 {
        return Err(ArithmeticBounds);
      }
      var id := nextOrderId;
      var o := Order(maker, orderType, amount, price);
      if orderType == TokenBuy {
        buyOrders := buyOrders[id := o];
      } else {
        sellOrders := sellOrders[id := o];
      }
      nextOrderId := id + 1;
      log := log + [ExchangeEvent.NewOrder(id, maker, orderType, amount, price)];
      r := Ok(id);
    }

    /** `matchOrders(buyId, sellId)`: a missing order or prices that do not
      cross revert with the book unchanged; otherwise both orders are
      reduced by the traded amounts and a filled order leaves the book. */
    method MatchOrders(buyId: nat, sellId: nat, tokenToWei: (nat, nat) -> nat, weiToToken: (nat, nat) -> nat)
      returns (r: Result<Fill>)
      requires Valid()
      modifies this`buyOrders, this`sellOrders, this`log
      ensures Valid()
      ensures buyId !in old(buyOrders) || sellId !in old(sellOrders) ==>
        r == Err(NotFound) && buyOrders == old(buyOrders) && sellOrders == old(sellOrders) && log == old(log)
      ensures buyId in old(buyOrders) && sellId in old(sellOrders) ==>
        var buy, sell := old(buyOrders)[buyId], old(sellOrders)[sellId];
        && r == MatchFill(buy, sell, tokenToWei, weiToToken)
        && (r.Err? ==> buyOrders == old(buyOrders) && sellOrders == old(sellOrders) && log == old(log))
        && (r.Ok? ==>
              && buyOrders == Reduced(old(buyOrders), buyId, r.value.tradedWei)
              && sellOrders == Reduced(old(sellOrders), sellId, r.value.tradedTokens)
              && log == old(log) + [OrderFill(buy.maker, sell.maker, buyId, sellId, MatchPrice(buy, sell),
                                               r.value.tradedWei, r.value.tradedTokens)])
      ensures r.Ok? ==> BuyCount() + SellCount() < old(BuyCount()) + old(SellCount())
    {
      if buyId !in buyOrders || sellId !in sellOrders {
        return Err(NotFound);
      }
      var buy, sell := buyOrders[buyId], sellOrders[sellId];
      r := MatchFill(buy, sell, tokenToWei, weiToToken);
      if r.Err? {
        return;
      }
      ReducedSideValid(buyOrders, TokenBuy, nextOrderId, buyId, r.value.tradedWei);
      ReducedSideValid(sellOrders, TokenSell, nextOrderId, sellId, r.value.tradedTokens);
      buyOrders := Reduced(buyOrders, buyId, r.value.tradedWei);
      sellOrders := Reduced(sellOrders, sellId, r.value.tradedTokens);
      log := log + [OrderFill(buy.maker, sell.maker, buyId, sellId, MatchPrice(buy, sell), r.value.tradedWei, r.value.tradedTokens)];
    }
  }
}
