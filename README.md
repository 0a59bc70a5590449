# Trailing-trade indicator job and the "remove last buy price" step, in Dafny

This project models two pieces of a Binance trading bot.

- **The indicator job** (`app/cronjob/trailingTradeIndicator.js`). On each tick it builds the
  processing data with two producers: the global configuration, then the next symbol. It asks
  the lock service whether that symbol is locked and returns at once if it is. Otherwise it
  locks the symbol and runs five steps in a fixed order: get-symbol-configuration,
  get-account-info, get-indicators, get-open-orders, save-data-to-cache. Each step gets the
  data the previous one returned. After the last step it unlocks the symbol. A single `catch`
  takes every error, including those the lock service throws. It stays silent for exchange codes
  -1001 and -1021, for the network codes `ECONNRESET` and `ECONNREFUSED`, and for errors whose
  message mentions `redlock`. For any other error that has a message it sends one alert with
  the time, code, message and stack. An error with neither a silenced code nor a message makes
  the `catch` itself throw (see "Findings"); the model of a run uses the corrected condition.
- **The "remove last buy price" step**, as its test suite
  (`app/cronjob/trailingTrade/step/__tests__/remove-last-buy-price.test.js`) fixes it. When
  the symbol is unlocked, no action has been decided, there are no open orders and a last buy
  price is tracked, the step checks the whole base-asset balance (free plus locked). If it is
  below the lot-size minimum quantity, or its value at the current price is below the minimum
  notional, the step deletes the persisted `<symbol>-last-buy-price` record from the
  `trailing-trade-symbols` collection. It then returns the context with only `sell` extended by
  a process message and an update stamp.

Files:

- `wrappers.dfy`: `Option` and `Result`.
- `strings.dfy`: JavaScript's `includes`, joining template parts, and rendering an integer.
- `remove_last_buy_price.dfy`: the step as a pure function from the context to the returned
  context plus an optional delete request, its properties, and the seven test fixtures.
- `trailing_trade_indicator.dfy`: the job. It has the error classifier, a specification
  function `Execution` of one run, lemmas about it, and the imperative `Execute`. `Execute`
  runs against a `LockService` class (the set of held symbols, and the calls on which its
  back-end throws) and an `AlertChannel` class (the sent messages). It is proved to do exactly
  what `Execution` describes.

Decimal strings and numbers are exact `real`s. Steps and producers are opaque functions that
return new data or the error they threw. The alert timestamp is a parameter.

Three behaviours the tests and the code fix that a reader might not expect:

- The step's quantity check is on free plus locked, not on the free balance alone. The test at
  `remove-last-buy-price.test.js:283-321` keeps the record with `free = 0`, `locked = 0.2` at
  price 200.
- The step does not set `sell.lastBuyPrice` to null when it deletes the record: the tests
  expect 160 in the returned context (`:218-224`, `:271-278`). So a second run on its own
  output deletes again. `RemoveLastBuyPrice.ExecuteTwice` shows this only repeats the same
  delete and restamps.
- The unlock at `trailingTradeIndicator.js:87` sits inside the `try`, not in a `finally`, so a
  failing step, or a failing unlock, leaves the symbol locked.

## Model

| member | source | states |
|---|---|---|
| `RemoveLastBuyPrice.Execute` | app/cronjob/trailingTrade/step/__tests__/remove-last-buy-price.test.js:14-321 | If the guard fails (locked, action other than `not-determined`, open orders, or no last buy price), the context is returned unchanged with no delete. Otherwise one delete happens exactly when the total quantity is below `minQty` or quantity × price is below `minNotional`. The delete targets `trailing-trade-symbols` / `<symbol>-last-buy-price`. Every field outside `sell`, plus `sell.currentPrice` and `sell.lastBuyPrice`, is carried over. On delete, the message is "not enough to sell" when the quantity check fails, and the notional message otherwise. |
| `RemoveLastBuyPrice.ExecuteTwice` | app/cronjob/trailingTrade/step/__tests__/remove-last-buy-price.test.js:215-226 | Because the last buy price is kept, running the step on its own output gives the same result as one run with the later stamp. |
| `RemoveLastBuyPrice.FixtureSymbolLocked` | app/cronjob/trailingTrade/step/__tests__/remove-last-buy-price.test.js:14-49 | Locked symbol: no delete, result equals input. |
| `RemoveLastBuyPrice.FixtureActionDecided` | app/cronjob/trailingTrade/step/__tests__/remove-last-buy-price.test.js:52-87 | Action `buy`: no delete, result equals input. |
| `RemoveLastBuyPrice.FixtureNoLastBuyPrice` | app/cronjob/trailingTrade/step/__tests__/remove-last-buy-price.test.js:90-126 | No last buy price: no delete, result equals input. |
| `RemoveLastBuyPrice.FixtureOpenOrders` | app/cronjob/trailingTrade/step/__tests__/remove-last-buy-price.test.js:128-175 | An open order blocks the delete, even with a zero balance and a last buy price of 190. |
| `RemoveLastBuyPrice.FixtureNotEnoughToSell` | app/cronjob/trailingTrade/step/__tests__/remove-last-buy-price.test.js:177-228 | Zero balance: one delete of `BTCUPUSDT-last-buy-price`. `sell` gains the "not enough to sell" message and the stamp, and the last buy price stays 160. This holds for any rounding that floors to the lot step. |
| `RemoveLastBuyPrice.FixtureLessThanNotional` | app/cronjob/trailingTrade/step/__tests__/remove-last-buy-price.test.js:230-281 | 0.04 locked at 200 is worth 8, under 10: one delete with the notional message, and the last buy price stays 160. |
| `RemoveLastBuyPrice.FixtureEnoughBalance` | app/cronjob/trailingTrade/step/__tests__/remove-last-buy-price.test.js:283-321 | Free 0 (below `minQty`) with 0.2 locked at 200: no delete, result equals input. So the locked balance counts toward the quantity. |
| `Strings.IncludesIffOccurs` | app/cronjob/trailingTradeIndicator.js:105 | `includes` holds exactly when the substring occurs at some position, in both directions. |
| `Strings.ConcatIncludesPart` | app/cronjob/trailingTradeIndicator.js:110-112 | A template literal's text includes each interpolated part. |
| `Strings.IntToString` | app/cronjob/trailingTradeIndicator.js:110-111 | A numeric code renders as a minus sign exactly when it is negative, followed by digits only, with no leading zero unless the code is 0, whose value is the code's magnitude. |
| `TrailingTradeIndicator.ProducersChain` | app/cronjob/trailingTradeIndicator.js:31-32 | Running the producers calls the configuration producer on the skeleton, then the symbol producer on its output. A throw from either stops the run. |
| `TrailingTradeIndicator.Chain` | app/cronjob/trailingTradeIndicator.js:52-84 | The step loop: it finishes having started every step, or stops after a non-empty prefix of the steps, the last of which threw. |
| `TrailingTradeIndicator.ChainAppend` | app/cronjob/trailingTradeIndicator.js:52-84 | Running `a + b` equals running `a`, then `b` on its output. A throw in `a` stops before `b`. |
| `TrailingTradeIndicator.ThreadsChain` | app/cronjob/trailingTradeIndicator.js:81-82 | If each step maps its predecessor's output to the next data, the loop finishes with the last data. |
| `TrailingTradeIndicator.ChainDoneThreads` | app/cronjob/trailingTradeIndicator.js:81-82 | A loop that finishes passed each step exactly the previous step's output. |
| `TrailingTradeIndicator.ChainStoppedThreads` | app/cronjob/trailingTradeIndicator.js:81-82 | A loop that stops was threaded up to the failing step, and that step threw on its predecessor's output. |
| `TrailingTradeIndicator.RunSteps` | app/cronjob/trailingTradeIndicator.js:52-84 | The `for ... of` loop computes exactly `Chain` of the steps. |
| `TrailingTradeIndicator.SilencedAsWrittenThrows` | app/cronjob/trailingTradeIndicator.js:100-106 | The written condition throws exactly when no silenced code matches and the error has no message. An error with neither is a concrete case. |
| `TrailingTradeIndicator.SilencedMeaning` | app/cronjob/trailingTradeIndicator.js:100-106 | An error is silenced exactly when its code is -1001, -1021, `ECONNRESET` or `ECONNREFUSED`, or its message contains `redlock`. This agrees with the written condition wherever that condition does not throw. |
| `TrailingTradeIndicator.AlertTextMentions` | app/cronjob/trailingTradeIndicator.js:109-113 | The alert text contains the timestamp, the code, the message and the stack. |
| `TrailingTradeIndicator.ProducersRunFirst` | app/cronjob/trailingTradeIndicator.js:31-32 | Every run calls the configuration producer first and the symbol producer second. |
| `TrailingTradeIndicator.LockedSymbolIsProduced` | app/cronjob/trailingTradeIndicator.js:32-49 | When both producers succeed, the third call checks the symbol `getNextSymbol` returned, and the lock and any unlock are on that same symbol. When a producer throws, the run ends in the catch with that error after only the producer calls, and the locks are unchanged. |
| `TrailingTradeIndicator.SkipWhenLocked` | app/cronjob/trailingTradeIndicator.js:41-47 | A run skips exactly when the lock check returns (without throwing) that the symbol is held. It then makes no call after the check, sends no alert and leaves the locks unchanged. |
| `TrailingTradeIndicator.StepsInOrder` | app/cronjob/trailingTradeIndicator.js:49-87 | Once a step has started, the third call was the check and the fourth the lock of the checked symbol. The calls after it are a non-empty prefix of the five step names in order. The only call after them is an unlock of that symbol, made after all five. A finished run makes exactly ten calls. |
| `TrailingTradeIndicator.SuccessReleasesLock` | app/cronjob/trailingTradeIndicator.js:49-87 | A finished run's last call unlocks the symbol it locked, and the held locks end as they were before the run. |
| `TrailingTradeIndicator.FailureKeepsLock` | app/cronjob/trailingTradeIndicator.js:49-95 | A throw after the lock, from a step or from the unlock, leaves the symbol held, and no unlock call precedes the last call. A throw up to and including the lock call leaves the locks unchanged. |
| `TrailingTradeIndicator.LockServiceFailures` | app/cronjob/trailingTradeIndicator.js:41-95 | A throw from the lock check ends the run after three calls, and a throw from the lock ends it after four; in both cases the error is caught and the locks are unchanged. A throw from the unlock comes after all five steps, is caught, and leaves the symbol held. |
| `TrailingTradeIndicator.AlertUnlessSilenced` | app/cronjob/trailingTradeIndicator.js:95-115 | One alert is sent exactly when the run ends in an error that is not silenced, and its text is the formatted alert for that error. |
| `TrailingTradeIndicator.FinishedDataThreaded` | app/cronjob/trailingTradeIndicator.js:21-84 | A finished run's data is the skeleton passed through the two producers and the five steps, each on the previous output. |
| `TrailingTradeIndicator.LockService.IsSymbolLocked` | app/cronjob/trailingTradeIndicator.js:41 | The check throws the back-end's error if there is one. Otherwise it answers whether the symbol is in the held set. |
| `TrailingTradeIndicator.LockService.LockSymbol` | app/cronjob/trailingTradeIndicator.js:49 | Locking throws the back-end's error and changes nothing, or adds the symbol to the held set. |
| `TrailingTradeIndicator.LockService.UnlockSymbol` | app/cronjob/trailingTradeIndicator.js:87 | Unlocking throws the back-end's error and changes nothing, or removes the symbol from the held set. |
| `TrailingTradeIndicator.AlertChannel.SendMessage` | app/cronjob/trailingTradeIndicator.js:109-113 | Sending appends exactly one message. |
| `TrailingTradeIndicator.Execute` | app/cronjob/trailingTradeIndicator.js:19-116 | One run against the lock service and alert channel produces the calls, outcome, held locks and sent alert that `Execution` specifies. Every throw, from a producer, a step or the lock service, ends in the catch. |

## Left out

- Logging: the logger, the child step loggers and what they record are not modelled.
- Alert delivery: Slack is not modelled. The alert channel only records the text it is given.
- Alert timestamp: `moment().format(...)` is a wall-clock reading, passed in as a string.
- Collaborator internals: the configuration, symbol, account-info, indicator, open-order and
  cache steps are opaque functions. Their effects on the exchange, the cache and the database
  are not modelled.
- TrailingTradeIndicator.Execute: the run's catch uses the corrected silence condition of the
  "Findings" row. For an error with no silenced code and no message the model sends an alert,
  where the code as written throws a TypeError at `trailingTradeIndicator.js:105` and sends
  nothing. `SilencedAsWritten` models the written condition on its own.
- Lock-service failures are given per call kind and symbol by `LockFaults`, fixed for the
  lifetime of a `LockService` object. A call that throws is taken to leave the held set as it
  was; what the lock back-end does internally when it fails is not part of this model.
- Strings.IntToString: codes are unbounded integers. JavaScript prints a number of magnitude
  1e21 or more in exponent form, and the model does not.
- Concurrency: the lock check and the lock are two separate calls, so they give no atomic
  guarantee. The model holds the lock state of a single run and proves nothing about runs
  that interleave.
- `updatedAt` is an opaque stamp, as the tests only ask that it be an object.
- The step's lot-step rounding is not visible. `RemoveLastBuyPrice.Execute` takes it as a
  parameter, `sellable`, applied to free plus locked. The fixtures are proved for every
  rounding that floors to the lot step, which rules out any fee deduction before flooring.
- Floating point: decimal strings such as `'0.01000000'` are exact reals, so there is no float
  parsing or rounding error.
- Data content: the payload objects the job carries are opaque maps. The `null` symbol of the
  skeleton is the empty string.
- A thrown `null` or `undefined` (where reading `err.code` itself throws) is not modelled.
  Errors are records with a code, a message and a stack that may each be absent.
- The step's source file is not part of this model. The step is modelled from its tests.

## Findings

| source | as written | input that shows it | evidently intended | confidence | as-written member | corrected member |
|---|---|---|---|---|---|---|
| app/cronjob/trailingTradeIndicator.js:100-106 | `err.message.includes('redlock')` is evaluated when no silenced code matches, and it throws when the error has no `message`. The throw escapes the `catch`, so `execute` rejects instead of completing. | An error with no `code` and no `message`, such as a thrown string or a plain object | The catch always completes: an error without a message is simply not a `redlock` error, and it is reported | low, not executed; only non-`Error` values thrown by a collaborator reach it | `TrailingTradeIndicator.SilencedAsWrittenThrows` | `TrailingTradeIndicator.SilencedMeaning` |
