# BOTI trading client core, in Dafny

This project models the sequential core of the BOTI crypto trading client and proves properties of that model. It has three parts.

- **Tick-to-candle aggregation** (`PriceProcessor.py`), in `PriceProcessing.dfy`.
  - A processor for one pair keeps three things:
    - the start of the current bucket (`last_complete_candle_time`);
    - a buffer of (time, price) samples;
    - what it has put on the pair's price queue and candle queue.
  - Each `process_price` call does three things in order. It forwards the snapshot to the price queue. It appends the snapshot to the buffer. It then stores the snapshot's bucket. If that bucket is later than the stored one, it folds the buffer into an OHLC candle and queues the candle.
  - The pure functions `RoundTimeDown`, `CandleFrom`, `Detected`, `Step` and `Run` specify this behaviour.
  - The class `PriceProcessor` carries the fields the sequential core uses: the pair, the granularity, the stored bucket, the buffer and the two queues. Each of its methods is proved to change the state exactly as the matching specification function says.
- **Position management** (`OrderManager.py`), in `OrderManagement.dfy`.
  - The constructor checks the instrument contract.
  - The minimum-size test `is_valid_order` is modelled.
  - `trail_stop` is modelled as an in-place update of the position record's `sl`, specified by `TrailedStop`. It is proved to behave as a one-way ratchet over any run of quotes.
- **Order dispatch** (`OrdMan.py`, `OrderExecFactory.py`), in `OrderDispatch.dfy` and `OrderExecFactory.dfy`.
  - A single dispatcher instance sizes orders through the risk manager and queues them.
  - One iteration of the worker loop takes the head order. It resolves an executor by case-insensitive order type, then either sends the order to the exchange gateway or logs that the type is unsupported.
  - The risk sizer and the gateway are oracles that can fail. Each is a function held in a datatype.

`Wrappers.dfy` holds `Option` and `Result`. An exception in the source is a `Failure` or a `None` in the model.

Timestamps are Unix seconds (`nat`). The Unix epoch starts on a whole hour, so the hour of `t` starts at `t - t % 3600`, and its minute is `(t % 3600) / 60`.

## Boundary crossings

What `process_price` does when a tick enters a new bucket:
- `process_price` appends the tick to the buffer before `detect_new_candle` runs (PriceProcessor.py:98-109), so the crossing tick lands in the emitted candle.
- `set_last_candle` overwrites the bucket before `construct_candle` reads it (PriceProcessor.py:48-50, 71), so the candle is stamped with the *new* bucket start.
- After a crossing, the buffer is empty, not holding the crossing tick.
- A tick whose bucket is earlier than the stored one still overwrites the stored bucket (PriceProcessor.py:46-51). It emits nothing, but the next in-order tick then crosses again into a bucket whose candle was already emitted. With a five-minute granularity, ticks at 00:05:01, 00:01:00 and 00:05:02 give two candles stamped 00:05. This is why `RunKeepsCandlesOrdered` and `CandleStampsIncrease` assume that tick times never decrease.

`FiveMinuteScenario` works one run through: ticks at 00:00:00, 00:02:00, 00:04:59 and 00:05:01 give one candle stamped 00:05. That candle has open 100, high 110, low 98 and close 110, so the 00:05:01 tick is inside it.

## Model

| member | source | states |
|---|---|---|
| `PriceProcessing.GranularityMinutes` | PriceProcessor.py:9-14 | A name is found exactly when it is "1m", "5m", "15m" or "1h". Every width found divides 60; any other name is the KeyError of line 21. |
| `PriceProcessing.RoundTimeDown` | PriceProcessor.py:36-44 | The rounded time is at or before `t`, less than one bucket width before it, on a whole minute, and its minute is a multiple of the granularity. |
| `PriceProcessing.RoundTimeDownIsFloor` | PriceProcessor.py:36-44 | Keeping the hour and rounding the minute down is the same as flooring `t` to a multiple of `60 * g` seconds. |
| `PriceProcessing.RoundTimeDownIsGreatest` | PriceProcessor.py:36-44 | Every bucket boundary at or before `t` is at or before the rounded time, which is therefore the latest such boundary. |
| `PriceProcessing.RoundTimeDownOfBucket` | PriceProcessor.py:36-44 | Every `t` in `[60gq, 60g(q+1))` rounds to `60gq`. |
| `PriceProcessing.RoundTimeDownIdempotent` | PriceProcessor.py:36-44 | Rounding a rounded time changes nothing. |
| `PriceProcessing.RoundTimeDownMonotone` | PriceProcessor.py:36-44 | A later timestamp never rounds to an earlier bucket. |
| `PriceProcessing.MaxPrice` | PriceProcessor.py:65 | The result is one of the buffered prices and no buffered price exceeds it. |
| `PriceProcessing.MinPrice` | PriceProcessor.py:66 | The result is one of the buffered prices and no buffered price is below it. |
| `PriceProcessing.CandleFrom` | PriceProcessor.py:61-88 | An empty buffer gives None and stays as it was. A non-empty one gives a candle stamped with the given time, with open = first price, close = last, high = max, low = min and volume 0, and leaves the buffer empty. |
| `PriceProcessing.OhlcBounds` | PriceProcessor.py:62-77 | In every candle, low ≤ open ≤ high and low ≤ close ≤ high. |
| `PriceProcessing.OhlcUnique` | PriceProcessor.py:62-77 | A buffer and a stamp determine the candle: two OHLC summaries of the same buffer are equal. |
| `PriceProcessing.Detected` | PriceProcessor.py:46-51 | The tick's bucket is always stored. A candle from the buffer, stamped with the new bucket, is queued exactly when the new bucket is later than the old one. Otherwise the buffer and the candle queue are untouched. |
| `PriceProcessing.Step` | PriceProcessor.py:90-109 | A None snapshot changes nothing. A tick is queued on the price queue and its bucket is stored even when earlier. When the bucket moves forward, one candle built from the buffer plus the tick itself is queued and the buffer is emptied. Otherwise no candle is queued and the tick is appended to the buffer. |
| `PriceProcessing.RunForwardsEveryTick` | PriceProcessor.py:94-96 | Over any run, the price queue receives every non-None snapshot exactly once, in arrival order. |
| `PriceProcessing.RunEmitsAtMostOnePerTick` | PriceProcessor.py:46-51 | Over any run, at most one candle is queued per tick, and candles already queued are never altered. |
| `PriceProcessing.RunKeepsCandlesOrdered` | PriceProcessor.py:31-51 | With non-decreasing tick times, the candle queue stays a list of present candles stamped on bucket boundaries with strictly increasing stamps. |
| `PriceProcessing.CandleStampsIncrease` | PriceProcessor.py:31-51 | From an empty candle queue, ticks in time order yield candles stamped on strictly increasing bucket boundaries. |
| `PriceProcessing.StepWithinBucket` | PriceProcessor.py:46-49 | A tick in the stored bucket is only queued and buffered. |
| `PriceProcessing.ScenarioCrossing` | PriceProcessor.py:98-109 | The tick at 00:05:01 closes the first five-minute bucket. It is inside the emitted candle (close 110, high 110), and the candle is stamped 00:05. |
| `PriceProcessing.FiveMinuteScenario` | PriceProcessor.py:90-109 | Four ticks from 00:00:00 to 00:05:01 yield exactly one candle, (00:05, 100, 110, 98, 110, 0), an empty buffer and bucket 00:05. |
| `PriceProcessing.PriceProcessor.constructor` | PriceProcessor.py:18-29 | The processor starts with empty buffer and queues, and its bucket is the clock reading rounded down. |
| `PriceProcessing.PriceProcessor.Create` | PriceProcessor.py:18-29 | An unknown granularity name gives no processor. A known one gives a fresh processor with that width and the rounded start bucket. |
| `PriceProcessing.PriceProcessor.SetLastCandle` | PriceProcessor.py:31-34 | The stored bucket becomes the rounded time. |
| `PriceProcessing.PriceProcessor.UpdateCandle` | PriceProcessor.py:55-56 | The candle is appended to the candle queue. |
| `PriceProcessing.PriceProcessor.UpdatePrice` | PriceProcessor.py:58-59 | The price is appended to the price queue. |
| `PriceProcessing.PriceProcessor.ConstructCandle` | PriceProcessor.py:61-88 | The returned candle and the buffer left behind are those of `CandleFrom` on the stored bucket and the old buffer. |
| `PriceProcessing.PriceProcessor.DetectNewCandle` | PriceProcessor.py:46-53 | The new state is `Detected` of the old state and the tick. |
| `PriceProcessing.PriceProcessor.ProcessPrice` | PriceProcessor.py:90-114 | The new state is `Step` of the old state and the snapshot, and the granularity stays valid. |
| `OrderManagement.Trunc` | OrderManager.py:17-18 | `int()` truncates toward zero: the result has the argument's sign and lies within one of it, on the zero side. |
| `OrderManagement.ReadContract` | OrderManager.py:14-19 | A None or empty contract is the ValueError. The record is accepted exactly when all three fields are present, and a missing field is reported by name. The kept values are the truncated places and the minimum trade amount. |
| `OrderManagement.OrderManager.Create` | OrderManager.py:5-21 | Construction fails exactly when the contract check fails, with the same error. Otherwise the fresh manager holds the symbol, the risk and the contract's three values, and it accepts an amount in `is_valid_order` (line 107-108) exactly when the amount reaches the contract's `minTradeNum`. |
| `OrderManagement.OrderManager.constructor` | OrderManager.py:10-19 | The manager keeps the symbol, the risk and the contract's precision and minimum. |
| `OrderManagement.OrderManager.IsValidOrder` | OrderManager.py:107-108 | An amount is valid exactly when it is at least the manager's minimum trade amount. |
| `OrderManagement.BranchOf` | OrderManager.py:120-128 | The long branch is taken exactly when `holdSide` is "long". The short branch is taken exactly when it is not and `side` is "short". A record with neither `holdSide` "long" nor a `side` entry raises. |
| `OrderManagement.TrailedStop` | OrderManager.py:110-135 | A KeyError on 'side' happens exactly for a non-long record without 'side'. A long stop never falls: it moves exactly when the bid clears the trigger and `bid - trail * entry` beats it, and then it moves to that value. A short stop never rises and moves to `ask + trail * entry` exactly in the mirror case. Any other record is unchanged. |
| `OrderManagement.TrailStopIdempotent` | OrderManager.py:122-133 | A second call with the same quote leaves the stop where the first call put it. |
| `OrderManagement.TrailOver` | OrderManager.py:116-135 | Repeated calls change only the stop of the record. |
| `OrderManagement.TrailOverLong` | OrderManager.py:120-125 | Repeated calls on a long record never raise and follow the long ratchet with distances `trigger * entry` and `trail * entry`. |
| `OrderManagement.TrailOverShort` | OrderManager.py:128-133 | Repeated calls on a short record never raise and follow the short ratchet. |
| `OrderManagement.LongRatchetIsMaximum` | OrderManager.py:120-125 | After any run of quotes, a long stop equals the highest of its start and of `bid - trail * entry` over the quotes that passed the trigger. |
| `OrderManagement.ShortRatchetIsMinimum` | OrderManager.py:128-133 | After any run of quotes, a short stop equals the lowest of its start and of `ask + trail * entry` over the quotes that passed the trigger. |
| `OrderManagement.OrderManager.TrailStop` | OrderManager.py:110-135 | Only `sl` of the caller's record changes, to the value `TrailedStop` gives, and the same record is returned. On the KeyError nothing changes. |
| `OrderExecFactory.MarketIgnoresPrice` | OrderExecFactory.py:12-13 | The market executor's gateway call and its answer do not depend on the price. |
| `OrderExecFactory.Request` | OrderExecFactory.py:12-20 | Each executor forwards symbol, side and size unchanged. Only the limit executor makes a limit call, and it forwards the price unchanged. |
| `OrderExecFactory.Execute` | OrderExecFactory.py:12-20 | A market executor returns its gateway's answer to a market call without the price; a limit executor returns the answer to a limit call with the price. |
| `OrderExecFactory.LowerChar` | OrderExecFactory.py:29 | With ASCII lowering: an upper-case ASCII letter maps to its lower-case letter; any other character is unchanged. |
| `OrderExecFactory.Lower` | OrderExecFactory.py:29 | With ASCII lowering: lowering keeps the length and lowers each character in place. |
| `OrderExecFactory.LowerIdempotent` | OrderExecFactory.py:29 | Lowering twice is lowering once. |
| `OrderExecFactory.GetExecutor` | OrderExecFactory.py:22-29 | The market executor is returned exactly when the lowered type is "market", the limit executor exactly when it is "limit", and None for every other string. |
| `OrderExecFactory.GetExecutorIgnoresCase` | OrderExecFactory.py:29 | Two types that lower to the same string select the same executor. |
| `OrderExecFactory.MarketSpellings` | OrderExecFactory.py:24-29 | With ASCII lowering, the strings selecting the market executor are exactly the six-letter spellings of "market" in any mix of cases. |
| `OrderDispatch.PlaceOrderStep` | OrdMan.py:18-30 | When the risk sizer raises, the queue is unchanged and one rejection is logged. Otherwise exactly one order carrying the sizer's size is appended at the tail and nothing is logged. |
| `OrderDispatch.WorkerStep` | OrdMan.py:32-46 | A set flag or an empty queue changes nothing. Otherwise only the head is removed, never put back, and it is either sent through its executor, with the response or failure logged, or logged as unsupported with nothing sent. |
| `OrderDispatch.WorkerIsFifo` | OrdMan.py:34-46 | `n` iterations with at least `n` orders queued handle exactly the first `n` orders, in queue order, in both the gateway calls and the log, and leave the rest queued. |
| `OrderDispatch.ShutdownStopsWorker` | OrdMan.py:34-50 | Once the flag is set, no number of iterations changes anything. |
| `OrderDispatch.IdleWorkerWaits` | OrdMan.py:36-44 | With an empty queue, iterations only time out and change nothing. |
| `OrderDispatch.OrderManager.constructor` | OrdMan.py:8-13 | A new dispatcher holds the gateway and the risk manager, an empty queue and an unset flag. |
| `OrderDispatch.OrderManager.PlaceOrder` | OrdMan.py:18-30 | The new state is `PlaceOrderStep` of the old one. |
| `OrderDispatch.OrderManager.ProcessOrder` | OrdMan.py:34-46 | One loop pass runs exactly when the flag is unset, and the new state is `WorkerStep` of the old one. |
| `OrderDispatch.OrderManager.ProcessOrders` | OrdMan.py:32-46 | The loop leaves the state that the given number of `WorkerStep` iterations gives, stopping early once the flag is set. |
| `OrderDispatch.OrderManager.Shutdown` | OrdMan.py:48-50 | The flag is set and nothing else changes. |
| `OrderDispatch.OrderManagerClass.New` | OrdMan.py:5-16 | The first call creates and stores a fresh dispatcher with an empty queue. Every later call returns the stored instance and ignores its arguments. |

## Left out

- Threads, locks, events and blocking are not modelled. This covers:
  - the `run` loop, the lock and the event `wait`/`clear` in PriceProcessor.py:92, 114 and 116-121;
  - the daemon worker thread, the class lock, `get(timeout=1)` and `join` in OrdMan.py.

  One call, or one loop pass, is modelled as one sequential step. The worker loop runs for a bounded number of passes (`ProcessOrders`), since the real loop only ends on shutdown.
- The `try`/`except` in `process_price` (PriceProcessor.py:111-112) is not modelled: no step of the model can raise.
- Timestamps are Unix seconds, so sub-second precision and time zones are not modelled. pandas DataFrames become sequences, and `copy.deepcopy` becomes passing the snapshot by value.
- `print` output is not modelled. Logger output is kept as a log of the entries that matter (rejection, execution, unsupported type, failure), without the message text.
- The exchange calls in OrderManager.py are not modelled:
  - `get_account_balance`, `get_instrument_contract`, `place_trigger_order`, `get_all_positions` and `get_order_detail` (lines 31-55, 57-105, 137-163);
  - the constructor receives what the contract lookup returned as a parameter;
  - the float rounding in `place_trigger_order` and `oid` (uuid generation) go with them.
- The helpers at OrderManager.py:166-199 are not modelled. They read `self._session`, which is never assigned.
  - In Python, the second `is_valid_order` (line 191) replaces the one at line 107, so calling it would raise AttributeError. Only the line-107 comparison is modelled.
- The contract's values are taken as numbers. `int()`/`float()` parsing of their text, and the `order_tracker` dictionary, are not modelled.
- `trail_stop` models only the record entries it reads. Only the `side` entry can be absent. Missing `sl`, `openPriceAvg`, `holdSide`, `bid` or `ask` entries (further KeyErrors) are not modelled.
- The risk sizer and the gateway are fixed functions: the same request always gets the same answer. `RiskManager(api)` itself is not part of this model; its sizing function is passed to the first construction.
- LowerChar, Lower, MarketSpellings: `str.lower` is modelled for ASCII letters only. Python also lowers other Unicode letters, some into two characters ('İ'), so `LowerChar`'s "any other character is unchanged" and `Lower`'s length preservation hold of the model only. Non-ASCII spellings such as "MAR\u212AET" (with the Kelvin sign) select the market executor in Python but give None in the model.
- PriceProcessing.PriceProcessor: the shutdown event and the inherited shared dictionary, lock and event set (PriceProcessor.py:19-25) are not fields of the class. Its price and candle queues hold what this processor put, not the shared per-pair dictionaries of queues.
- A non-string order type, which would make `get_executor` raise, cannot occur in the model, because the order type is a string.
- TraderBot.py is not part of this model. It is configuration, logger and thread wiring.
