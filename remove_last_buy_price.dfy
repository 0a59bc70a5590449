/** The trailing-trade step "remove last buy price": when the bot still tracks a
    last buy price for a symbol but the balance it holds can no longer be sold
    (too small a quantity for the lot-size filter, or too small a value for the
    minimum-notional filter), the persisted last-buy-price record is deleted.

    The step is a pure function from the processing context to the returned
    context plus at most one delete request for the document store. */
module RemoveLastBuyPrice {
  import opened Wrappers

  /** The only action for which the step may act. */
  const NotDetermined: string := "not-determined"

  /** The document-store collection holding symbol-keyed trading state. */
  const SymbolsCollection: string := "trailing-trade-symbols"

  const NotEnoughToSell: string :=
    "Balance is found; however, not enough to sell. Delete last buy price."

  const LessThanNotional: string :=
    "Balance is found; however, the balance is less than the notional value. Delete last buy price."

  /** `updatedAt` is a wall-clock reading; the model treats it as an opaque stamp. */
  type Stamp = nat

  /** Exchange filters, with the decimal strings read as exact decimals. */
  datatype LotSize = LotSize(stepSize: real, minQty: real)
  datatype MinNotional = MinNotional(minNotional: real)
  datatype SymbolInfo = SymbolInfo(filterLotSize: LotSize, filterMinNotional: MinNotional)

  datatype OpenOrder = OpenOrder(
    orderId: int, price: real, quantity: real, side: string,
    stopPrice: real, symbol: string, timeInForce: string, orderType: string)

  datatype Balance = Balance(free: real, locked: real)

  /** The `sell` sub-record; an absent key is `None`. */
  datatype Sell = Sell(
    currentPrice: real,
    lastBuyPrice: Option<real>,
    processMessage: Option<string>,
    updatedAt: Option<Stamp>)

  datatype Context = Context(
    action: string,
    isLocked: bool,
    symbol: string,
    symbolInfo: SymbolInfo,
    openOrders: seq<OpenOrder>,
    baseAssetBalance: Balance,
    sell: Sell)

  /** `deleteOne(collection, { key })` against the document store. */
  datatype DeleteRequest = DeleteRequest(collection: string, key: string)

  datatype StepResult = StepResult(data: Context, delete: Option<DeleteRequest>)

  /** The key of the persisted last-buy-price record of a symbol. */
  function LastBuyPriceKey(symbol: string): string
  {
    symbol + "-last-buy-price"
  }

  /** The step leaves the context alone unless every guard condition passes:
      the symbol is not locked, no action has been decided, there are no open
      orders, and a last buy price is tracked. */
  predicate Applies(c: Context)
  {
    !c.isLocked && c.action == NotDetermined && |c.openOrders| == 0 && c.sell.lastBuyPrice.Some?
  }

  /** The quantity checked against the filters: the whole balance, free and
      locked together, after `sellable` (the step's rounding to the lot step,
      which the model keeps abstract). */
  function Quantity(c: Context, sellable: real -> real): real
  {
    sellable(c.baseAssetBalance.free + c.baseAssetBalance.locked)
  }

  predicate BelowMinQty(c: Context, sellable: real -> real)
  {
    Quantity(c, sellable) < c.symbolInfo.filterLotSize.minQty
  }

  predicate BelowMinNotional(c: Context, sellable: real -> real)
  {
    Quantity(c, sellable) * c.sell.currentPrice < c.symbolInfo.filterMinNotional.minNotional
  }

  /** The returned context: the input with only `sell` extended by a process
      message and a stamp. `lastBuyPrice` is carried over unchanged. */
  function Deleted(c: Context, message: string, now: Stamp): Context
  {
    c.(sell := c.sell.(processMessage := Some(message), updatedAt := Some(now)))
  }

  /** `step.execute(logger, rawData)`. */
  function Execute(c: Context, sellable: real -> real, now: Stamp): (r: StepResult)
    // guard: no delete, context returned as it came
    ensures !Applies(c) ==> r == StepResult(c, None)
    // a delete is issued exactly when the guard passes and a filter fails
    ensures r.delete.Some? <==>
              Applies(c) && (BelowMinQty(c, sellable) || BelowMinNotional(c, sellable))
    // when nothing is deleted nothing changes
    ensures r.delete.None? ==> r.data == c
    // the only delete is of this symbol's last-buy-price record
    ensures r.delete.Some? ==>
              r.delete.value == DeleteRequest(SymbolsCollection, c.symbol + "-last-buy-price")
    // every field outside `sell` is carried over, and so are the price fields in `sell`
    ensures r.data.(sell := c.sell) == c
    ensures r.data.sell.currentPrice == c.sell.currentPrice
    ensures r.data.sell.lastBuyPrice == c.sell.lastBuyPrice
    // a delete is explained and stamped; the quantity check is made first
    ensures r.delete.Some? ==> r.data.sell.updatedAt == Some(now)
    ensures r.delete.Some? ==>
              r.data.sell.processMessage ==
                Some(if BelowMinQty(c, sellable) then NotEnoughToSell else LessThanNotional)
  {
    if !Applies(c) then
      StepResult(c, None)
    else if BelowMinQty(c, sellable) then
      StepResult(Deleted(c, NotEnoughToSell, now),
                 Some(DeleteRequest(SymbolsCollection, LastBuyPriceKey(c.symbol))))
    else if BelowMinNotional(c, sellable) then
      StepResult(Deleted(c, LessThanNotional, now),
                 Some(DeleteRequest(SymbolsCollection, LastBuyPriceKey(c.symbol))))
    else
      StepResult(c, None)
  }

  /** Running the step again on its own output changes nothing beyond the
      stamp: the guard still passes (the last buy price is not cleared), the
      same single record is deleted again, and the message is rewritten. */
  lemma ExecuteTwice(c: Context, sellable: real -> real, t1: Stamp, t2: Stamp)
    ensures Execute(Execute(c, sellable, t1).data, sellable, t2) == Execute(c, sellable, t2)
  {
  }

  /** The lot-step rounding never adds quantity and drops less than one step
      (flooring to a multiple of the step size meets this). */
  ghost predicate LotFloor(sellable: real -> real, stepSize: real)
  {
    forall x: real :: 0.0 <= x ==> x - stepSize <= sellable(x) <= x
  }

  // ---- The fixtures of the step's test suite ----

  function FixtureSymbolInfo(): SymbolInfo
  {
    SymbolInfo(LotSize(0.01, 0.01), MinNotional(10.0))
  }

  function Fixture(action: string, isLocked: bool, openOrders: seq<OpenOrder>,
                   free: real, locked: real, lastBuyPrice: Option<real>): Context
  {
    Context(action, isLocked, "BTCUPUSDT", FixtureSymbolInfo(), openOrders,
            Balance(free, locked), Sell(200.0, lastBuyPrice, None, None))
  }

  function FixtureOpenOrder(): OpenOrder
  {
    OpenOrder(123, 197.8, 0.09, "sell", 198.0, "BTCUPUSDT", "GTC", "STOP_LOSS_LIMIT")
  }

  /** Locked symbol, action `buy`, no last buy price: untouched. */
  lemma FixtureSymbolLocked(sellable: real -> real, now: Stamp)
    ensures var c := Fixture("buy", true, [], 0.0, 0.0, None);
            Execute(c, sellable, now) == StepResult(c, None)
  {
  }

  /** Action `buy` on an unlocked symbol: untouched. */
  lemma FixtureActionDecided(sellable: real -> real, now: Stamp)
    ensures var c := Fixture("buy", false, [], 0.0, 0.0, None);
            Execute(c, sellable, now) == StepResult(c, None)
  {
  }

  /** No last buy price: untouched. */
  lemma FixtureNoLastBuyPrice(sellable: real -> real, now: Stamp)
    ensures var c := Fixture(NotDetermined, false, [], 0.0, 0.0, None);
            Execute(c, sellable, now) == StepResult(c, None)
  {
  }

  /** An open sell order keeps the record even with an empty balance. */
  lemma FixtureOpenOrders(sellable: real -> real, now: Stamp)
    ensures var c := Fixture(NotDetermined, false, [FixtureOpenOrder()], 0.0, 0.0, Some(190.0));
            Execute(c, sellable, now) == StepResult(c, None)
  {
  }

  /** No balance at all: the record is deleted as not enough to sell, and
      the last buy price stays 160 in the returned context. */
  lemma FixtureNotEnoughToSell(sellable: real -> real, now: Stamp)
    requires LotFloor(sellable, 0.01)
    ensures var c := Fixture(NotDetermined, false, [], 0.0, 0.0, Some(160.0));
            Execute(c, sellable, now) ==
              StepResult(
                c.(sell := Sell(200.0, Some(160.0), Some(NotEnoughToSell), Some(now))),
                Some(DeleteRequest("trailing-trade-symbols", "BTCUPUSDT-last-buy-price")))
  {
    assert sellable(0.0 + 0.0) <= 0.0;
    assert LastBuyPriceKey("BTCUPUSDT") == "BTCUPUSDT-last-buy-price";
  }

  /** 0.04 locked at price 200 is worth 8, under the notional minimum of 10. */
  lemma FixtureLessThanNotional(sellable: real -> real, now: Stamp)
    requires LotFloor(sellable, 0.01)
    ensures var c := Fixture(NotDetermined, false, [], 0.0, 0.04, Some(160.0));
            Execute(c, sellable, now) ==
              StepResult(
                c.(sell := Sell(200.0, Some(160.0), Some(LessThanNotional), Some(now))),
                Some(DeleteRequest("trailing-trade-symbols", "BTCUPUSDT-last-buy-price")))
  {
    var c := Fixture(NotDetermined, false, [], 0.0, 0.04, Some(160.0));
    var q := Quantity(c, sellable);
    assert 0.03 <= q <= 0.04;
    assert !BelowMinQty(c, sellable) && BelowMinNotional(c, sellable);
    assert LastBuyPriceKey(c.symbol) == "BTCUPUSDT-last-buy-price";
  }

  /** 0.2 locked at price 200 is worth 40: the record is kept, although the
      free balance alone is 0, below the minimum quantity. */
  lemma FixtureEnoughBalance(sellable: real -> real, now: Stamp)
    requires LotFloor(sellable, 0.01)
    ensures var c := Fixture(NotDetermined, false, [], 0.0, 0.2, Some(160.0));
            c.baseAssetBalance.free < c.symbolInfo.filterLotSize.minQty &&
            Execute(c, sellable, now) == StepResult(c, None)
  {
    var c := Fixture(NotDetermined, false, [], 0.0, 0.2, Some(160.0));
    var q := Quantity(c, sellable);
    assert 0.19 <= q <= 0.2;
    assert !BelowMinQty(c, sellable) && !BelowMinNotional(c, sellable);
  }

  /** Flooring is not needed for the fixtures to hold: the unrounded total meets LotFloor. */
  lemma IdentityIsLotFloor(stepSize: real)
    requires 0.0 <= stepSize
    ensures LotFloor(x => x, stepSize)
  {
  }
}
