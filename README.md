# crypto_bot market-data ingestion, in Dafny

This project models the market-data path of crypto_bot, a Binance trading
bot. It covers three parts.

- **The market-data store** (`crypto_bot/__init__.py`). This is the global
  four-level dictionary `market_data`, keyed by exchange, symbol, market type
  and event type, with its only writer, `update_market_data`.
  - `MarketData.UpdateLevels` follows the writer's try/except path step by
    step on the nested dictionaries.
  - `MarketData.MarketStore` is the global store as an object. It holds the
    nested dictionaries and, as a ghost field, their flat view from a
    four-part coordinate to the value.
  - The lemmas show that the two views agree. A store written only through
    `update_market_data` never holds an empty intermediate dictionary, and
    two such stores with the same flat view are equal (this is stated for
    `UpdateMarketData`; the handler methods do not carry it). The lemmas also prove
    the properties of writes: last write wins, idempotence, and no entry is
    ever removed.
- **The websocket message handler** (`crypto_bot/binance/message_handler.py`).
  It covers the following.
  - The routing table `handler_tree`, with its segment level (`"spot"`,
    `"um"`) and its `"e"` level.
  - Every handler: a single write, the kline write, the four mark-price
    writes, or a raise.
  - Choosing the handler, from the `"e"` field or, without one, from the
    stream name.
  - Batches, the error path, and the observer callback.
  
  A Python exception is a `Failure` value. It ends the record, the batch and
  the message it occurs in, as an uncaught raise does. The functions `Body`,
  `Invoke`, `Resolve`, `Dispatch`, `DispatchBatch` and `DispatchMessage`
  state what each step does. Each takes the store writes it performs, in
  order, plus its outcome. The class `BinanceWSMessageHandler` holds the
  methods that perform those writes on a `MarketStore`. Each method is proved
  to do exactly what its function says.
- **Stream subscription** (`crypto_bot/binance/binance_client.py`).
  `stream_pairs` builds the `pair@type` stream names with two nested loops,
  and `start_stream` subscribes the spot and the USD-M futures websocket
  clients. A subscribe call is returned as a `Subscription` value.

Files:

- `wrappers.dfy`: `Option` and `Result`.
- `json_values.dfy`: decoded JSON values, Python truthiness, `str()` of a
  scalar, and the `in` test on strings.
- `market_data.dfy`: the store.
- `message_handler.dfy`: the routing table, handlers, dispatch and the
  handler class.
- `message_effects.dfy`: what whole combined-stream messages do to the store.
- `binance_client.dfy`: `stream_pairs` and `start_stream`.

### Behaviour worth knowing

- **A batch stops at its first raise.** `_handle_multiple_data_points`
  calls `_handle_single_data_point` in a plain loop
  (`crypto_bot/binance/message_handler.py:286-287`). The first record that
  raises ends the batch, and the records after it are never processed
  (`DispatchBatch`, `BatchStopsAtFirstFailure`, `BatchOutcome`).
- **An unknown event type raises.** `_unknown_event_type_handler` raises an
  exception (lines 245-250). This ends the record, and with it the batch and
  the message.
- **The callback runs only when nothing raised** (lines 320-321). It is
  skipped after any exception in dispatch.
- **A message is data only with both `data` and `stream`** (line 305). An
  object missing either key takes the error path.
- **Most unimplemented handlers fail with TypeError.** Most of them declare
  only `(self, message)`, so the call `handler(data_point, market=market)`
  raises TypeError before their body runs. Only `_window_ticker_handler` and
  `_um_conditional_order_trigger_reject_handler` accept the keyword and
  reach their `NotImplementedError`.
  - The futures `depthUpdate` handler (`_um_depth_handler`) is one of these.
  - A spot partial-depth snapshot carries no `"s"`. It is routed to
    `_depth_handler` by its stream name, and that handler then raises
    KeyError (`MessageEffects.PartialDepthMessage`).

## Model

| member | source | states |
|---|---|---|
| JsonValues.Truthy | crypto_bot/binance/message_handler.py:258 | Python truthiness of a decoded value: null, false, 0, the empty string, list and object are false |
| JsonValues.PyStr | crypto_bot/binance/message_handler.py:111 | what an f-string renders for a scalar (None, True/False, decimal integers, the string itself); containers are not rendered |
| MarketData.Lookup | crypto_bot/__init__.py:68 | reads `market_data[exchange][symbol][market][event]`, or nothing where Python would raise KeyError |
| MessageHandler.SpotHandlers | crypto_bot/binance/message_handler.py:19-37 | the 13 spot event types and their handlers, one entry per line of the table |
| MessageHandler.UmHandlers | crypto_bot/binance/message_handler.py:39-63 | the 19 futures event types and their handlers, one entry per line of the table |
| MessageHandler.SignatureOf | crypto_bot/binance/message_handler.py:79-243 | which parameters each handler declares after `self`: `market` and `**kwargs`, only `**kwargs`, or only `message` |
| MessageHandler.Body | crypto_bot/binance/message_handler.py:79-243 | each handler body's reads and `update_market_data` calls as a list of writes, or the KeyError, TypeError or NotImplementedError it raises first |
| MessageHandler.Invoke | crypto_bot/binance/message_handler.py:261 | `handler(data_point, market=market)`: a handler declared `(self, message)` raises TypeError; otherwise its body runs; only the nine implemented handlers can complete |
| MessageHandler.PyIn | crypto_bot/binance/message_handler.py:266-268 | Python's `key in x`: substring for a string, element for a list, key for an object; TypeError for any other value |
| MessageHandler.InferEventType | crypto_bot/binance/message_handler.py:265-271 | the event type guessed from the stream name is only ever depthUpdate or bookTicker |
| MessageHandler.Resolve | crypto_bot/binance/message_handler.py:256-279 | the handler chosen for a record is always one registered in the market's table |
| MessageHandler.Dispatch | crypto_bot/binance/message_handler.py:252-279 | `_handle_single_data_point`: resolve the handler, then call it with `market=`; a record that is not an object fails on `.get` |
| MessageHandler.DispatchBatch | crypto_bot/binance/message_handler.py:282-287 | the records' writes in list order, ending at the first record that raises |
| MessageHandler.DispatchMessage | crypto_bot/binance/message_handler.py:303-318 | list data is a batch, other data a single record, an object without both keys the error path, and any other decoded value raises (TypeError or AttributeError, both `WrongType`) |
| BinanceClient.CrossStreams | crypto_bot/binance/binance_client.py:138-141 | the stream list, pair-major and type-minor; `CrossStreamsLength`, `CrossStreamsAt` and `CrossStreamsMembers` state its shape |
| JsonValues.Contains | crypto_bot/binance/message_handler.py:266-268 | Python's `needle in haystack` on strings holds exactly when the needle occurs as a contiguous slice at some index |
| MarketData.Put | crypto_bot/__init__.py:66-78 | after `update_market_data`, the written coordinate reads the new value and every other coordinate reads what it read before; the exchange keys grow by at most the written exchange, and other exchanges' dictionaries are untouched |
| MarketData.UpdateLevels | crypto_bot/__init__.py:67-78 | the try/except path (direct assignment when the three intermediate levels exist, otherwise create each missing level, the leaf first as `{}`, then assign) ends with exactly `Put` |
| MarketData.PutKeepsLevels | crypto_bot/__init__.py:69-78 | a write creates levels only where absent: every existing dictionary keeps its keys, and a store with no empty intermediate dictionary stays so |
| MarketData.PutAgrees | crypto_bot/__init__.py:66-78 | a nested write is a flat map update: if the dictionaries agree with a flat map before, they agree with the updated map after |
| MarketData.LevelsDetermined | crypto_bot/__init__.py:6 | two stores without empty intermediate dictionaries that read the same at every coordinate are the same dictionary |
| MarketData.PutLastWriteWins | crypto_bot/__init__.py:78 | a second write to a coordinate replaces the first wholesale: the result equals writing only the second value |
| MarketData.PutIdempotent | crypto_bot/__init__.py:78 | writing the same value twice to the same coordinate is writing it once |
| MarketData.ApplyWritesAppend | crypto_bot/__init__.py:49-78 | applying one write sequence and then another is applying their concatenation |
| MarketData.ApplyWritesSnoc | crypto_bot/__init__.py:49-78 | applying a sequence and then one more write is one further map update |
| MarketData.ApplyWritesLast | crypto_bot/__init__.py:78 | after a sequence of writes a coordinate holds the value of the last write to it, or its old value (present or absent) when none writes it |
| MarketData.FromEmpty | crypto_bot/__init__.py:6 | a store built from `{}` holds exactly the written coordinates, each with its last written value |
| MarketData.ApplyWritesKeepsKeys | crypto_bot/__init__.py:49-78 | no write removes an entry: the coordinates present before are present after |
| MarketData.ApplyWritesTwice | crypto_bot/__init__.py:78 | performing the same writes twice leaves the store as performing them once |
| MarketData.MarketStore.constructor | crypto_bot/__init__.py:6 | the store starts as the empty dictionary, with an empty flat view |
| MarketData.MarketStore.Get | crypto_bot/__init__.py:6-46 | reading a coordinate finds a value exactly when it was written, and it is the written value |
| MarketData.MarketStore.UpdateMarketData | crypto_bot/__init__.py:49-78 | the dictionaries become `Put` of the old ones, the flat view gains the written coordinate, the two stay in agreement, and no intermediate dictionary is left empty |
| MessageHandler.HandlerTable | crypto_bot/binance/message_handler.py:17-65 | the routing table as `_initialize_handler_tree` builds it: "spot" to the spot table, "um" to the futures table; `SpotTableImplemented`, `UmTableImplemented` and `ExplicitEventType` state what it routes |
| MessageHandler.UnimplementedHandlersFail | crypto_bot/binance/message_handler.py:122-243 | every handler other than the nine implemented ones fails on every record: with TypeError when it lacks `**kwargs`, otherwise NotImplementedError, and writes nothing |
| MessageHandler.ImplementedHandlersAcceptMarket | crypto_bot/binance/message_handler.py:79-222 | each of the nine implemented handlers accepts the `market=` keyword the dispatcher passes |
| MessageHandler.SpotTableImplemented | crypto_bot/binance/message_handler.py:19-37 | among the spot event types, exactly aggTrade, trade, kline, 24hrMiniTicker, 24hrTicker, depthUpdate and bookTicker reach a handler that completes |
| MessageHandler.UmTableImplemented | crypto_bot/binance/message_handler.py:39-63 | among the futures event types, exactly aggTrade, markPriceUpdate, kline, 24hrMiniTicker, 24hrTicker and bookTicker reach a handler that completes |
| MessageHandler.SharedTradeTypes | crypto_bot/binance/message_handler.py:22-24 | in both segments aggTrade routes to the aggregate-trade handler and kline to the kline handler |
| MessageHandler.SharedTickerTypes | crypto_bot/binance/message_handler.py:25-26 | in both segments 24hrTicker routes to the ticker handler and 24hrMiniTicker to the mini-ticker handler |
| MessageHandler.KlineWrites | crypto_bot/binance/message_handler.py:104-111 | a kline record with a string symbol and interval is written once, whole, under `kline__<interval>` in the connection's market |
| MessageHandler.KlineIntervalsDistinct | crypto_bot/binance/message_handler.py:110-111 | klines with different intervals are written to different coordinates |
| MessageHandler.MarkPriceWrites | crypto_bot/binance/message_handler.py:168-179 | a mark-price record is written whole, then its mark price, funding rate and next funding time, all under "um", in that order |
| MessageHandler.SingleRecordWrites | crypto_bot/binance/message_handler.py:79-150 | each single-write handler stores the whole record once under its symbol and fixed event name: aggTrade, ticker, miniTicker and depth in the connection's market; trade and spot bookTicker under "spot"; the other bookTicker under "um" |
| MessageHandler.HandlerWritesCoordinates | crypto_bot/binance/message_handler.py:79-243 | every write of every handler goes to exchange "binance" and market type "spot" or "um" |
| MessageHandler.ExplicitEventType | crypto_bot/binance/message_handler.py:256-264 | a record whose "e" is a non-empty string goes to the handler registered under it, or to the unknown-event failure when none is |
| MessageHandler.DispatchExplicit | crypto_bot/binance/message_handler.py:252-264 | dispatching a record with a registered "e" is calling that handler with the record and the market |
| MessageHandler.InferredEventType | crypto_bot/binance/message_handler.py:265-271 | without a usable "e", a stream name containing "depth" gives depthUpdate; otherwise one containing "bookTicker" gives bookTicker; otherwise the record fails as unknown |
| MessageHandler.InferredTypesRegistered | crypto_bot/binance/message_handler.py:265-276 | both inferred event types are registered in both segments, and the depth and book-ticker handlers they reach are the ones named |
| MessageHandler.DispatchTwice | crypto_bot/binance/message_handler.py:303-318 | handling the same message twice leaves the store as handling it once |
| MessageHandler.BatchStopsAtFirstFailure | crypto_bot/binance/message_handler.py:282-287 | a batch whose first failing record is k performs exactly the writes of the records before k, in order, and ends with k's failure |
| MessageHandler.BatchAllPass | crypto_bot/binance/message_handler.py:282-287 | a batch with no failing record passes, and its writes are the concatenation, in list order, of the writes each record performs alone |
| MessageHandler.RecordWrites | crypto_bot/binance/message_handler.py:286-287 | lists, for a batch with no failing record, each record's own writes at its own position; `BatchAllPass` states the batch's writes through it |
| MessageHandler.NonDataMessage | crypto_bot/binance/message_handler.py:305-318 | an object lacking "data" or "stream" takes the error path, which writes nothing and does not fail |
| MessageHandler.BatchOutcome | crypto_bot/binance/message_handler.py:282-287 | a batch passes exactly when every one of its records dispatches without a raise |
| MessageHandler.Notification | crypto_bot/binance/message_handler.py:320-321 | the callback is called with the decoded message when one was given and nothing raised; whenever it is called, the argument is the message and the outcome was a pass |
| MessageHandler.BinanceWSMessageHandler.constructor | crypto_bot/binance/message_handler.py:9-14 | a new handler keeps the given callback and holds the full routing table |
| MessageHandler.BinanceWSMessageHandler.InitializeHandlerTree | crypto_bot/binance/message_handler.py:17-65 | the handler's routing table becomes the full table |
| MessageHandler.BinanceWSMessageHandler.UpdateBinance | crypto_bot/binance/message_handler.py:89-95 | a handler's `update_market_data("binance", …)` call performs the one write under the record's symbol |
| MessageHandler.BinanceWSMessageHandler.RecordHandler | crypto_bot/binance/message_handler.py:119-120 | the shared single-write body raises KeyError without "s" and otherwise performs `RecordWrite` on the store |
| MessageHandler.BinanceWSMessageHandler.AggTradeHandler | crypto_bot/binance/message_handler.py:79-95 | the store changes exactly as the aggregate-trade handler's writes say, with the same outcome |
| MessageHandler.BinanceWSMessageHandler.TradeHandler | crypto_bot/binance/message_handler.py:97-102 | the store changes exactly as the trade handler's writes say, on either connection |
| MessageHandler.BinanceWSMessageHandler.TickerHandler | crypto_bot/binance/message_handler.py:113-120 | the store changes exactly as the ticker handler's writes say |
| MessageHandler.BinanceWSMessageHandler.MiniTickerHandler | crypto_bot/binance/message_handler.py:125-131 | the store changes exactly as the mini-ticker handler's writes say |
| MessageHandler.BinanceWSMessageHandler.SpotBookTickerHandler | crypto_bot/binance/message_handler.py:133-147 | the store changes exactly as the spot book-ticker handler's writes say, on either connection |
| MessageHandler.BinanceWSMessageHandler.DepthHandler | crypto_bot/binance/message_handler.py:149-150 | the store changes exactly as the depth handler's writes say |
| MessageHandler.BinanceWSMessageHandler.UmBookTickerHandler | crypto_bot/binance/message_handler.py:203-222 | the store changes exactly as the futures book-ticker handler's writes say, on either connection |
| MessageHandler.BinanceWSMessageHandler.KlineHandler | crypto_bot/binance/message_handler.py:104-111 | the kline handler's field reads fail as KeyError or TypeError would, and otherwise it performs the one kline write |
| MessageHandler.BinanceWSMessageHandler.MarkPriceUpdateHandler | crypto_bot/binance/message_handler.py:168-179 | all four fields are read before any write, then the four writes are performed in order |
| MessageHandler.BinanceWSMessageHandler.WriteMarkPrice | crypto_bot/binance/message_handler.py:176-179 | the four store writes of the mark-price handler, in order: the record, the mark price, the funding rate, the next funding time |
| MessageHandler.BinanceWSMessageHandler.CallHandler | crypto_bot/binance/message_handler.py:261 | `handler(data_point, market=market)` raises TypeError for a handler without `market` or `**kwargs`, and otherwise runs its body |
| MessageHandler.BinanceWSMessageHandler.HandleSingleDataPoint | crypto_bot/binance/message_handler.py:252-279 | the store changes exactly as `Dispatch` says: the handler the table chooses, or the failure raised on the way |
| MessageHandler.BinanceWSMessageHandler.HandleMultipleDataPoints | crypto_bot/binance/message_handler.py:282-287 | the loop performs the writes of each record in list order and stops at the first failure, as `DispatchBatch` says |
| MessageHandler.BinanceWSMessageHandler.HandleError | crypto_bot/binance/message_handler.py:290-299 | the error path completes exactly for a decoded object; any other value raises on `.get` |
| MessageHandler.BinanceWSMessageHandler.HandleFullMessage | crypto_bot/binance/message_handler.py:303-321 | the store changes as `DispatchMessage` says, and the callback receives the message exactly when one was given and nothing raised |
| MessageEffects.SingleEnvelope | crypto_bot/binance/message_handler.py:305-314 | an envelope whose data is not a list is dispatched as one record with its stream name |
| MessageEffects.BatchEnvelope | crypto_bot/binance/message_handler.py:305-311 | an envelope whose data is a list is dispatched as a batch |
| MessageEffects.BatchOfTwo | crypto_bot/binance/message_handler.py:286-287 | a passing record followed by a failing one performs the first record's writes and ends with the second's failure |
| MessageEffects.BatchMessageCallback | crypto_bot/binance/message_handler.py:303-321 | a batch message reaches a given callback exactly when every record dispatches without a raise, and the callback receives the whole message |
| MessageEffects.AggTradeMessage | crypto_bot/binance/message_handler.py:79-95 | an aggregate-trade message on either connection passes and stores the record under its symbol and that market |
| MessageEffects.KlineMessage | crypto_bot/binance/message_handler.py:104-111 | a kline message passes with exactly one write under `kline__<interval>` |
| MessageEffects.KlineMessages | crypto_bot/binance/message_handler.py:104-111 | after two klines of one symbol with different intervals, each record is readable at its own coordinate |
| MessageEffects.MarkPriceMessage | crypto_bot/binance/message_handler.py:168-179 | a mark-price message on the futures connection populates the record and its three fields |
| MessageEffects.BookTickerMessage | crypto_bot/binance/message_handler.py:265-276 | a book-ticker record without "e", on a stream named for bookTicker and not depth, is stored under the connection's segment |
| MessageEffects.PartialDepthMessage | crypto_bot/binance/message_handler.py:149-150 | a depth snapshot with neither "e" nor "s" fails with KeyError on spot and TypeError on futures, and writes nothing |
| MessageEffects.ValidThenUnknownBatch | crypto_bot/binance/message_handler.py:282-287 | in a batch of a valid trade and an unregistered event type, the trade is stored and the batch then fails as unknown |
| BinanceClient.EffectiveTypes | crypto_bot/binance/binance_client.py:135-136 | an empty type list becomes `["aggTrade"]`, and a non-empty one is used as given |
| BinanceClient.Row | crypto_bot/binance/binance_client.py:140-141 | one pair's streams, `pair@type` for each type in order, as the inner loop appends them; `CrossStreamsAt` states each position of the whole list |
| BinanceClient.StartStream | crypto_bot/binance/binance_client.py:148-159 | the spot client is subscribed, with the spot list, exactly when that list is given and non-empty; the same holds for the futures client; spot comes first |
| BinanceClient.CrossStreamsLength | crypto_bot/binance/binance_client.py:138-141 | the stream list holds one name per (pair, type) |
| BinanceClient.CrossStreamsAt | crypto_bot/binance/binance_client.py:138-141 | position `i*|types|+j` of the list holds `pairs[i]@types[j]`: pair-major, type-minor |
| BinanceClient.CrossStreamsMembers | crypto_bot/binance/binance_client.py:138-141 | a name is in the list exactly when it is some pair joined to some type |
| BinanceClient.CrossStreamsEmpty | crypto_bot/binance/binance_client.py:138-141 | the list is empty exactly when there are no pairs or no types |
| BinanceClient.StreamPairs | crypto_bot/binance/binance_client.py:122-146 | the nested loops build exactly the pair-major list over the effective types, and the same list goes to every selected segment |
| BinanceClient.StreamPairsSubscriptions | crypto_bot/binance/binance_client.py:143-159 | nothing is subscribed exactly when there are no pairs or no segment is selected; otherwise there is one call per selected segment, each carrying the whole list |
| BinanceClient.DefaultTypes | crypto_bot/binance/binance_client.py:135-141 | with no types, each pair is subscribed to its `@aggTrade` stream only, in the order of the pairs |

## Left out

- BinanceClient.StreamPairs: `spot` and `futures` are explicit arguments. The
  source's defaults, `spot=True` and `futures=False`
  (`crypto_bot/binance/binance_client.py:125-126`), are not modelled.
- MarketData.MarketStore.UpdateMarketData: symbols are strings, so every
  write completes. In Python, a first write with an unhashable symbol
  creates the exchange level and then raises TypeError while creating the
  symbol level (`crypto_bot/__init__.py:70-72`). That leaves an empty
  dictionary behind, which the model cannot produce.
- JSON decoding (`json.loads` in `_handle_full_message`) is not modelled.
  Messages arrive already decoded as `Json` values, numbers are integers,
  and floating point is not modelled.
- The printing and the one-second `time.sleep` in `_handle_error` are left
  out. They are I/O and a clock.
- Concurrency between the spot and futures websocket threads is not
  modelled. Each call to a method runs to completion before the next.
- Aliasing is not modelled. Python stores the decoded record object by
  reference, and the model stores its value.
- The market argument is closed to `Spot` and `Um`, the two values the
  client passes. A `handler_tree[market]` lookup with any other string, which
  would raise KeyError, cannot be expressed.
- The callback is not called. `HandleFullMessage` returns the argument it
  would be called with. An exception raised inside the callback is not
  modelled.
- `get_on_um_message_handler` and `get_spot_message_handler` are not
  modelled. They are closures that fix the market and ignore the socket
  argument.
- MessageHandler.Body: a symbol that is not a string fails with `WrongType`.
  Python would accept any hashable value, such as an integer, as a
  dictionary key. The store is keyed by strings only.
- MessageHandler.Body: a kline interval that is a list or an object fails
  with `WrongType`. Python would render it with `repr` inside the f-string.
- Only the behaviour of the unknown-event handler is modelled, as the
  failure it raises. The text of its exception is not.
- BinanceClient.StreamPairs: pairs and types are strings. Python's f-string
  would also render other values.
- The subscribe calls are returned as `Subscription` values rather than
  performed on websocket clients.
- These parts of the bot are not part of this model:
  - authentication and listen keys;
  - websocket client construction;
  - user-data streams;
  - `stop_stream`;
  - the `STREAM_DESCRIPTION` table;
  - the unused class-level trees (`EXECUTION_REPORT_HANDLER_TREE` and the
    `um_*_HANDLER_TREE`s).
- `_asset_index_handler` is defined twice in the source. Both definitions
  raise `NotImplementedError` for a `(self, message)` signature, so one
  `AssetIndex` handler models both.
