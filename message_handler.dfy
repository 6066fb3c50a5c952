/**
 * The websocket message handler of crypto_bot/binance/message_handler.py:
 * a static routing table from (market, event type) to a handler, the
 * handlers' writes into the market-data store, and the dispatch of single
 * records, batches and whole decoded messages.
 *
 * A Python exception is modelled as a `Failure`: it stops the record, the
 * batch and the message it occurs in, exactly as an uncaught raise does.
 */
module MessageHandler {

  import opened Wrappers
  import opened JsonValues
  import opened MarketData

  /** The market segment a websocket connection belongs to: "spot" or "um". */
  datatype Segment = Spot | Um {
    function Name(): string {
      match this
      case Spot => "spot"
      case Um => "um"
    }
  }

  /** The handler methods of `BinanceWSMessageHandler` named in the routing table. */
  datatype Handler =
    | AggTrade | Trade | Kline | Ticker | WindowTicker | MiniTicker | SpotBookTicker | Depth
    | OutboundAccountInfo | BalanceUpdate | ExecutionReport
    | MarkPriceUpdate | ContinuousKline | ForceOrder | AssetIndex | CompositeIndex | ContractInfo
    | UmDepth | UmBookTicker
    | UmMarginCall | UmAccountUpdate | UmOrderTradeUpdate | UmAccountConfigUpdate
    | UmStrategyUpdate | UmGridUpdate | UmConditionalOrderTriggerReject

  /** The parameters a handler's Python definition declares after `self`. */
  datatype Signature =
    | MessageMarketKwargs  // (message, market, **kwargs)
    | MessageKwargs        // (message, **kwargs)
    | MessageOnly          // (message)

  function SignatureOf(h: Handler): Signature {
    match h
    case AggTrade | Kline | Ticker | MiniTicker | Depth => MessageMarketKwargs
    case Trade | WindowTicker | SpotBookTicker | MarkPriceUpdate | UmBookTicker
       | UmConditionalOrderTriggerReject => MessageKwargs
    case _ => MessageOnly
  }

  /** Why processing of a record stopped: the exception Python raises. */
  datatype Failure =
    | UnknownEventType     // `_unknown_event_type_handler` raises Exception
    | NotImplemented       // a handler body raises NotImplementedError
    | UnexpectedKeyword    // TypeError: the handler does not accept `market=`
    | MissingField(key: string)  // KeyError on a record field
    | WrongType            // TypeError or AttributeError on a value of the wrong JSON type

  datatype Outcome = Pass | Fail(failure: Failure)

  /** What dispatching something did: the store writes performed, in order, and how it ended. */
  datatype Effect = Effect(writes: seq<Write>, outcome: Outcome)

  /** A handler's result as an effect: a raise performs no write. */
  function ToEffect(r: Result<seq<Write>, Failure>): Effect {
    match r
    case Ok(ws) => Effect(ws, Pass)
    case Err(f) => Effect([], Fail(f))
  }

  /** The store went from `before` to `after` and the call returned `r`, as effect `e` says. */
  ghost predicate Performs(e: Effect, before: map<Coord, Json>, after: map<Coord, Json>, r: Outcome) {
    r == e.outcome && after == ApplyWrites(before, e.writes)
  }

  /** `self.handler_tree["spot"]["e"]`: the spot event types and their handlers. */
  function SpotHandlers(): map<string, Handler> {
    map[
      "aggTrade" := AggTrade,
      "trade" := Trade,
      "kline" := Kline,
      "24hrMiniTicker" := MiniTicker,
      "24hrTicker" := Ticker,
      "1hTicker" := WindowTicker,
      "4hTicker" := WindowTicker,
      "1dTicker" := WindowTicker,
      "outboundAccountInfo" := OutboundAccountInfo,
      "balanceUpdate" := BalanceUpdate,
      "executionReport" := ExecutionReport,
      "depthUpdate" := Depth,
      "bookTicker" := SpotBookTicker
    ]
  }

  /** `self.handler_tree["um"]["e"]`: the USD-M futures event types and their handlers. */
  function UmHandlers(): map<string, Handler> {
    map[
      "aggTrade" := AggTrade,
      "markPriceUpdate" := MarkPriceUpdate,
      "kline" := Kline,
      "continuous_kline" := ContinuousKline,
      "24hrMiniTicker" := MiniTicker,
      "24hrTicker" := Ticker,
      "bookTicker" := UmBookTicker,
      "forceOrder" := ForceOrder,
      "depthUpdate" := UmDepth,
      "compositeIndex" := CompositeIndex,
      "contractInfo" := ContractInfo,
      "assetIndexUpdate" := AssetIndex,
      "MARGIN_CALL" := UmMarginCall,
      "ACCOUNT_UPDATE" := UmAccountUpdate,
      "ORDER_TRADE_UPDATE" := UmOrderTradeUpdate,
      "ACCOUNT_CONFIG_UPDATE" := UmAccountConfigUpdate,
      "STRATEGY_UPDATE" := UmStrategyUpdate,
      "GRID_UPDATE" := UmGridUpdate,
      "CONDITIONAL_ORDER_TRIGGER_REJECT" := UmConditionalOrderTriggerReject
    ]
  }

  /** `self.handler_tree[market]["e"]`. */
  function Handlers(market: Segment): map<string, Handler> {
    match market
    case Spot => SpotHandlers()
    case Um => UmHandlers()
  }

  /** `self.handler_tree`, as `_initialize_handler_tree` builds it: one table per segment. */
  function HandlerTable(): map<Segment, map<string, Handler>> {
    map[Spot := SpotHandlers(), Um := UmHandlers()]
  }

  // ---------------------------------------------------------------------------
  // Field access on decoded records

  /** `message[key]` on a record. */
  function Field(message: map<string, Json>, key: string): Result<Json, Failure> {
    if key in message then Ok(message[key]) else Err(MissingField(key))
  }

  /** `value[key]` on any decoded value: only a JSON object can be indexed by a string. */
  function Member(value: Json, key: string): Result<Json, Failure> {
    match value
    case JObj(fields) => Field(fields, key)
    case _ => Err(WrongType)
  }

  /** A symbol used as a store key; the model keys the store by strings only. */
  function Symbol(value: Json): Result<string, Failure> {
    match value
    case JStr(s) => Ok(s)
    case _ => Err(WrongType)
  }

  /** `update_market_data("binance", symbol, market, event, data)` as a write. */
  function BinanceWrite(symbol: string, market: string, event: string, data: Json): Write {
    Write(Coord("binance", symbol, market, event), data)
  }

  /** The handlers that write the whole record once, keyed by its `s` field. */
  function RecordWrite(message: map<string, Json>, market: string, event: string): Result<seq<Write>, Failure> {
    var s :- Field(message, "s");
    var symbol :- Symbol(s);
    Ok([BinanceWrite(symbol, market, event, JObj(message))])
  }

  // ---------------------------------------------------------------------------
  // Handlers

  /**
   * What the body of handler `h` does with `message`: the store writes it
   * performs, in order, or the exception it raises before writing anything.
   */
  function Body(h: Handler, message: map<string, Json>, market: Segment): Result<seq<Write>, Failure> {
    match h
    case AggTrade => RecordWrite(message, market.Name(), "aggTrade")
    case Trade => RecordWrite(message, "spot", "trade")
    case Kline =>
      var s :- Field(message, "s");
      var k :- Field(message, "k");
      var i :- Member(k, "i");
      var symbol :- Symbol(s);
      var interval :- match PyStr(i) case Some(t) => Ok(t) case None => Err(WrongType);
      Ok([BinanceWrite(symbol, market.Name(), "kline__" + interval, JObj(message))])
    case Ticker => RecordWrite(message, market.Name(), "ticker")
    case MiniTicker => RecordWrite(message, market.Name(), "miniTicker")
    case SpotBookTicker => RecordWrite(message, "spot", "bookTicker")
    case Depth => RecordWrite(message, market.Name(), "depth")
    case MarkPriceUpdate =>
      var s :- Field(message, "s");
      var p :- Field(message, "p");
      var r :- Field(message, "r");
      var t :- Field(message, "T");
      var symbol :- Symbol(s);
      Ok([
        BinanceWrite(symbol, "um", "markPriceUpdate", JObj(message)),
        BinanceWrite(symbol, "um", "markPrice", p),
        BinanceWrite(symbol, "um", "fundingRate", r),
        BinanceWrite(symbol, "um", "nextFundingTime", t)
      ])
    case UmBookTicker => RecordWrite(message, "um", "bookTicker")
    case _ => Err(NotImplemented)
  }

  /**
   * `handler(data_point, market=market)`: a handler that declares neither a
   * `market` parameter nor `**kwargs` rejects the keyword before its body runs.
   */
  function Invoke(h: Handler, message: map<string, Json>, market: Segment): (r: Result<seq<Write>, Failure>)
    ensures r.Ok? ==> SignatureOf(h) != MessageOnly && Implemented(h)
  {
    if SignatureOf(h) == MessageOnly then Err(UnexpectedKeyword) else Body(h, message, market)
  }

  // ---------------------------------------------------------------------------
  // Resolution of the event type

  /** Python's `key in container` for a decoded value; a scalar container raises TypeError. */
  function PyIn(key: string, container: Json): Result<bool, Failure> {
    match container
    case JStr(s) => Ok(Contains(s, key))
    case JArr(items) => Ok(JStr(key) in items)
    case JObj(fields) => Ok(key in fields)
    case _ => Err(WrongType)
  }

  /** The event type of a record without a usable "e" field, guessed from the stream name. */
  function InferEventType(streamName: Json): (r: Result<string, Failure>)
    ensures r.Ok? ==> r.value in {"depthUpdate", "bookTicker"}
  {
    var depth :- PyIn("depth", streamName);
    if depth then Ok("depthUpdate")
    else
      var book :- PyIn("bookTicker", streamName);
      if book then Ok("bookTicker") else Err(UnknownEventType)
  }

  /** The handler `_handle_single_data_point` chooses for a record, from the table of its market. */
  function Resolve(table: map<string, Handler>, record: map<string, Json>, streamName: Json): (r: Result<Handler, Failure>)
    ensures r.Ok? ==> r.value in table.Values
  {
    if "e" in record && Truthy(record["e"]) then
      match record["e"]
      case JStr(ev) => if ev in table then Ok(table[ev]) else Err(UnknownEventType)
      case JArr(_) => Err(WrongType)   // a list is not hashable
      case JObj(_) => Err(WrongType)   // nor is a dict
      case _ => Err(UnknownEventType)  // a number or True is never a key of the table
    else
      var ev :- InferEventType(streamName);
      if ev in table then Ok(table[ev]) else Err(UnknownEventType)
  }

  /** What `_handle_single_data_point(point, market, stream_name)` does. */
  function Dispatch(point: Json, market: Segment, streamName: Json): Result<seq<Write>, Failure> {
    match point
    case JObj(record) =>
      var h :- Resolve(Handlers(market), record, streamName);
      Invoke(h, record, market)
    case _ => Err(WrongType)  // only a dict has `.get`
  }

  /** What `_handle_multiple_data_points` does: records in list order, stopping at the first raise. */
  function DispatchBatch(points: seq<Json>, market: Segment, streamName: Json): (e: Effect)
    decreases |points|
  {
    if points == [] then Effect([], Pass)
    else
      match Dispatch(points[0], market, streamName)
      case Err(f) => Effect([], Fail(f))
      case Ok(ws) =>
        var rest := DispatchBatch(points[1..], market, streamName);
        Effect(ws + rest.writes, rest.outcome)
  }

  /** What `_handle_full_message` does with a decoded message, before the callback. */
  function DispatchMessage(message: Json, market: Segment): Effect {
    match message
    case JObj(fields) =>
      if "data" in fields && "stream" in fields then
        match fields["data"]
        case JArr(points) => DispatchBatch(points, market, fields["stream"])
        case point => ToEffect(Dispatch(point, market, fields["stream"]))
      else
        Effect([], Pass)  // `_handle_error`: reports and pauses, writes nothing
    case _ =>
      // `in` on a scalar raises TypeError; a list or a string reaches a
      // subscript or `.get` that raises.
      Effect([], Fail(WrongType))
  }

  /** The argument the observer callback is called with, if it is called. */
  function Notification(message: Json, hasCallback: bool, outcome: Outcome): (r: Option<Json>)
    ensures r.Some? ==> r.value == message && outcome == Pass
  {
    if hasCallback && outcome == Pass then Some(message) else None
  }

  // ---------------------------------------------------------------------------
  // Properties of the routing table and the handlers

  /** The handlers that run to completion on a well-formed record. */
  predicate Implemented(h: Handler) {
    h in {AggTrade, Trade, Kline, Ticker, MiniTicker, SpotBookTicker, Depth, MarkPriceUpdate, UmBookTicker}
  }

  /**
   * Every other handler fails whatever the record: with a TypeError when it
   * lacks `**kwargs`, otherwise with NotImplementedError.
   */
  lemma UnimplementedHandlersFail(h: Handler, message: map<string, Json>, market: Segment)
    requires !Implemented(h)
    ensures Invoke(h, message, market) ==
      Err(if SignatureOf(h) == MessageOnly then UnexpectedKeyword else NotImplemented)
    ensures ToEffect(Invoke(h, message, market)).writes == []
  {
  }

  /** The implemented handlers all accept the `market=` keyword. */
  lemma ImplementedHandlersAcceptMarket(h: Handler)
    requires Implemented(h)
    ensures SignatureOf(h) != MessageOnly
  {
  }

  /** The spot event types whose handler runs to completion; every other entry raises. */
  lemma SpotTableImplemented()
    ensures forall ev | ev in SpotHandlers() ::
      Implemented(SpotHandlers()[ev]) <==>
      ev in {"aggTrade", "trade", "kline", "24hrMiniTicker", "24hrTicker", "depthUpdate", "bookTicker"}
  {
  }

  /** The USD-M futures event types whose handler runs to completion; every other entry raises. */
  lemma UmTableImplemented()
    ensures forall ev | ev in UmHandlers() ::
      Implemented(UmHandlers()[ev]) <==>
      ev in {"aggTrade", "markPriceUpdate", "kline", "24hrMiniTicker", "24hrTicker", "bookTicker"}
  {
  }

  /** The trade and kline event types both segments share route to the same handler in each. */
  lemma SharedTradeTypes(market: Segment)
    ensures "aggTrade" in Handlers(market) && Handlers(market)["aggTrade"] == AggTrade
    ensures "kline" in Handlers(market) && Handlers(market)["kline"] == Kline
  {
  }

  /** The 24-hour ticker event types both segments share route to the same handler in each. */
  lemma SharedTickerTypes(market: Segment)
    ensures "24hrTicker" in Handlers(market) && Handlers(market)["24hrTicker"] == Ticker
    ensures "24hrMiniTicker" in Handlers(market) && Handlers(market)["24hrMiniTicker"] == MiniTicker
  {
  }

  /** A kline record writes its whole payload once, under "kline__" followed by its interval. */
  lemma KlineWrites(message: map<string, Json>, market: Segment, symbol: string, interval: string)
    requires "s" in message && message["s"] == JStr(symbol)
    requires "k" in message && message["k"].JObj? && "i" in message["k"].fields
    requires message["k"].fields["i"] == JStr(interval)
    ensures Invoke(Kline, message, market) ==
      Ok([Write(Coord("binance", symbol, market.Name(), "kline__" + interval), JObj(message))])
  {
  }

  /** Klines of one symbol with different intervals land on different coordinates. */
  lemma KlineIntervalsDistinct(message1: map<string, Json>, message2: map<string, Json>, market: Segment)
    requires Invoke(Kline, message1, market).Ok? && Invoke(Kline, message2, market).Ok?
    requires message1["k"].fields["i"].JStr? && message2["k"].fields["i"].JStr?
    requires message1["k"].fields["i"] != message2["k"].fields["i"]
    ensures Invoke(Kline, message1, market).value[0].coord != Invoke(Kline, message2, market).value[0].coord
  {
    var p := "kline__";
    var i1, i2 := message1["k"].fields["i"].s, message2["k"].fields["i"].s;
    assert i1 == (p + i1)[|p|..];
    assert i2 == (p + i2)[|p|..];
  }

  /** A markPriceUpdate record performs exactly four writes under the "um" segment. */
  lemma MarkPriceWrites(message: map<string, Json>, market: Segment, symbol: string)
    requires "s" in message && message["s"] == JStr(symbol)
    requires "p" in message && "r" in message && "T" in message
    ensures Invoke(MarkPriceUpdate, message, market) == Ok([
      Write(Coord("binance", symbol, "um", "markPriceUpdate"), JObj(message)),
      Write(Coord("binance", symbol, "um", "markPrice"), message["p"]),
      Write(Coord("binance", symbol, "um", "fundingRate"), message["r"]),
      Write(Coord("binance", symbol, "um", "nextFundingTime"), message["T"])
    ])
  {
  }

  /**
   * The single-write handlers: the whole record under a fixed event name,
   * in the market passed in, or in a segment the handler fixes itself.
   */
  lemma SingleRecordWrites(message: map<string, Json>, market: Segment, symbol: string)
    requires "s" in message && message["s"] == JStr(symbol)
    ensures Invoke(AggTrade, message, market) == Ok([BinanceWrite(symbol, market.Name(), "aggTrade", JObj(message))])
    ensures Invoke(Ticker, message, market) == Ok([BinanceWrite(symbol, market.Name(), "ticker", JObj(message))])
    ensures Invoke(MiniTicker, message, market) == Ok([BinanceWrite(symbol, market.Name(), "miniTicker", JObj(message))])
    ensures Invoke(Depth, message, market) == Ok([BinanceWrite(symbol, market.Name(), "depth", JObj(message))])
    ensures Invoke(Trade, message, market) == Ok([BinanceWrite(symbol, "spot", "trade", JObj(message))])
    ensures Invoke(SpotBookTicker, message, market) == Ok([BinanceWrite(symbol, "spot", "bookTicker", JObj(message))])
    ensures Invoke(UmBookTicker, message, market) == Ok([BinanceWrite(symbol, "um", "bookTicker", JObj(message))])
  {
  }

  /** Every write of every handler goes to exchange "binance" and a segment named "spot" or "um". */
  lemma HandlerWritesCoordinates(h: Handler, message: map<string, Json>, market: Segment)
    ensures Invoke(h, message, market).Ok? ==>
      forall w | w in Invoke(h, message, market).value ::
        w.coord.exchange == "binance" && w.coord.market in {"spot", "um"}
  {
  }

  // ---------------------------------------------------------------------------
  // Properties of resolution and dispatch

  /**
   * A record whose "e" is a non-empty string is routed by the table alone: to
   * the handler registered under it, or to the unknown-event failure.
   */
  lemma ExplicitEventType(table: map<string, Handler>, record: map<string, Json>, streamName: Json, ev: string)
    requires "e" in record && record["e"] == JStr(ev) && ev != ""
    ensures ev in table ==> Resolve(table, record, streamName) == Ok(table[ev])
    ensures ev !in table ==> Resolve(table, record, streamName) == Err(UnknownEventType)
  {
  }

  /** A record whose "e" names a registered event type goes to that event type's handler. */
  lemma DispatchExplicit(record: map<string, Json>, market: Segment, streamName: Json, ev: string)
    requires "e" in record && record["e"] == JStr(ev) && ev != "" && ev in Handlers(market)
    ensures Dispatch(JObj(record), market, streamName) == Invoke(Handlers(market)[ev], record, market)
  {
    ExplicitEventType(Handlers(market), record, streamName, ev);
  }

  /**
   * A record without a usable "e" on a string stream: "depth" in the name
   * gives depthUpdate, else "bookTicker" gives bookTicker, else it fails.
   */
  lemma InferredEventType(name: string)
    ensures Contains(name, "depth") ==> InferEventType(JStr(name)) == Ok("depthUpdate")
    ensures !Contains(name, "depth") && Contains(name, "bookTicker") ==> InferEventType(JStr(name)) == Ok("bookTicker")
    ensures !Contains(name, "depth") && !Contains(name, "bookTicker") ==> InferEventType(JStr(name)) == Err(UnknownEventType)
  {
  }

  /** Both inferred event types are registered in both tables, so inference never misses the table. */
  lemma InferredTypesRegistered(record: map<string, Json>, name: string)
    requires !("e" in record && Truthy(record["e"]))
    ensures Contains(name, "depth") ==>
      Resolve(SpotHandlers(), record, JStr(name)) == Ok(Depth) &&
      Resolve(UmHandlers(), record, JStr(name)) == Ok(UmDepth)
    ensures !Contains(name, "depth") && Contains(name, "bookTicker") ==>
      Resolve(SpotHandlers(), record, JStr(name)) == Ok(SpotBookTicker) &&
      Resolve(UmHandlers(), record, JStr(name)) == Ok(UmBookTicker)
  {
    assert "depthUpdate" in SpotHandlers() && "bookTicker" in SpotHandlers();
    assert "depthUpdate" in UmHandlers() && "bookTicker" in UmHandlers();
  }

  /** Dispatching the same message twice leaves the store as dispatching it once. */
  lemma DispatchTwice(m: map<Coord, Json>, message: Json, market: Segment)
    ensures var ws := DispatchMessage(message, market).writes;
      ApplyWrites(ApplyWrites(m, ws), ws) == ApplyWrites(m, ws)
  {
    ApplyWritesTwice(m, DispatchMessage(message, market).writes);
  }

  /**
   * One step of a batch: given the writes `done` of the records before `i`,
   * record `i` either ends the batch with its failure or adds its own writes.
   */
  lemma BatchStep(points: seq<Json>, market: Segment, streamName: Json, i: nat, done: seq<Write>)
    requires i < |points|
    requires DispatchBatch(points, market, streamName) ==
      Effect(done + DispatchBatch(points[i..], market, streamName).writes, DispatchBatch(points[i..], market, streamName).outcome)
    ensures Dispatch(points[i], market, streamName).Err? ==>
      DispatchBatch(points, market, streamName) == Effect(done, Fail(Dispatch(points[i], market, streamName).error))
    ensures Dispatch(points[i], market, streamName).Ok? ==>
      DispatchBatch(points, market, streamName) ==
        Effect((done + Dispatch(points[i], market, streamName).value) + DispatchBatch(points[i + 1..], market, streamName).writes,
               DispatchBatch(points[i + 1..], market, streamName).outcome)
  {
    assert points[i..][1..] == points[i + 1..];
    assert done + [] == done;
    if Dispatch(points[i], market, streamName).Ok? {
      var ws := Dispatch(points[i], market, streamName).value;
      var rest := DispatchBatch(points[i + 1..], market, streamName).writes;
      assert done + (ws + rest) == (done + ws) + rest;
    }
  }

  /**
   * A batch stops at its first failing record `k`: the records before it have
   * all taken effect, in order, and nothing after it has.
   */
  lemma {:induction false} BatchStopsAtFirstFailure(points: seq<Json>, market: Segment, streamName: Json, k: nat)
    requires k < |points|
    requires forall j | 0 <= j < k :: Dispatch(points[j], market, streamName).Ok?
    requires Dispatch(points[k], market, streamName).Err?
    ensures DispatchBatch(points[..k], market, streamName).outcome == Pass
    ensures DispatchBatch(points, market, streamName) ==
      Effect(DispatchBatch(points[..k], market, streamName).writes, Fail(Dispatch(points[k], market, streamName).error))
    decreases k
  {
    if k > 0 {
      assert points[1..][..k - 1] == points[..k][1..];
      BatchStopsAtFirstFailure(points[1..], market, streamName, k - 1);
    }
  }

  /** A batch passes exactly when every one of its records dispatches without a raise. */
  lemma {:induction false} BatchOutcome(points: seq<Json>, market: Segment, streamName: Json)
    ensures DispatchBatch(points, market, streamName).outcome == Pass <==>
      forall j | 0 <= j < |points| :: Dispatch(points[j], market, streamName).Ok?
    decreases |points|
  {
    if points != [] {
      BatchOutcome(points[1..], market, streamName);
      if Dispatch(points[0], market, streamName).Ok? {
        forall j | 1 <= j < |points| ensures points[1..][j - 1] == points[j] { }
      }
    }
  }

  /** The writes of each record of a batch that has no failing record, in list order. */
  function RecordWrites(points: seq<Json>, market: Segment, streamName: Json): seq<seq<Write>>
    requires forall j | 0 <= j < |points| :: Dispatch(points[j], market, streamName).Ok?
  {
    seq(|points|, j requires 0 <= j < |points| => Dispatch(points[j], market, streamName).value)
  }

  /** The concatenation of a list of write sequences, first to last. */
  function Concat(wss: seq<seq<Write>>): seq<Write>
    decreases |wss|
  {
    if wss == [] then [] else wss[0] + Concat(wss[1..])
  }

  /**
   * A batch with no failing record passes and performs every record's
   * writes: the concatenation, in list order, of what each record does alone.
   */
  lemma {:induction false} BatchAllPass(points: seq<Json>, market: Segment, streamName: Json)
    requires forall j | 0 <= j < |points| :: Dispatch(points[j], market, streamName).Ok?
    ensures DispatchBatch(points, market, streamName).outcome == Pass
    ensures DispatchBatch(points, market, streamName).writes == Concat(RecordWrites(points, market, streamName))
    decreases |points|
  {
    if points != [] {
      BatchAllPass(points[1..], market, streamName);
      assert RecordWrites(points, market, streamName)[1..] == RecordWrites(points[1..], market, streamName);
    }
  }

  /**
   * A decoded message is data only with both "data" and "stream"; any other
   * object takes the error path, which writes nothing and does not fail.
   */
  lemma NonDataMessage(fields: map<string, Json>, market: Segment)
    requires !("data" in fields && "stream" in fields)
    ensures DispatchMessage(JObj(fields), market) == Effect([], Pass)
  {
  }

  /** Four writes in order are four successive map updates. */
  lemma ApplyFour(m: map<Coord, Json>, ws: seq<Write>)
    requires |ws| == 4
    ensures ApplyWrites(m, ws) ==
      m[ws[0].coord := ws[0].value][ws[1].coord := ws[1].value][ws[2].coord := ws[2].value][ws[3].coord := ws[3].value]
  {
    assert ws == [ws[0], ws[1], ws[2]] + [ws[3]];
    ApplyWritesSnoc(m, [ws[0], ws[1], ws[2]], ws[3]);
    assert [ws[0], ws[1], ws[2]] == [ws[0], ws[1]] + [ws[2]];
    ApplyWritesSnoc(m, [ws[0], ws[1]], ws[2]);
    assert [ws[0], ws[1]] == [ws[0]] + [ws[1]];
    ApplyWritesSnoc(m, [ws[0]], ws[1]);
    assert [ws[0]] == [] + [ws[0]];
    ApplyWritesSnoc(m, [], ws[0]);
  }

  // ---------------------------------------------------------------------------
  // The handler object

  /** `BinanceWSMessageHandler`: its routing table and optional observer callback. */
  class BinanceWSMessageHandler {
    var handlerTree: map<Segment, map<string, Handler>>
    /** Whether a callback was given; calling it is returned as a value, see `HandleFullMessage`. */
    var callback: bool

    ghost predicate Valid()
      reads this
    {
      handlerTree == HandlerTable()
    }

    constructor (callback: bool)
      ensures Valid() && this.callback == callback
    {
      this.callback := callback;
      handlerTree := map[];
      new;
      InitializeHandlerTree();
    }

    /** `_initialize_handler_tree`. */
    method InitializeHandlerTree()
      modifies this
      ensures Valid() && callback == old(callback)
    {
      handlerTree := HandlerTable();
    }

    /**
     * `update_market_data("binance", symbol, market, event, data)` for a symbol
     * read from a record; a non-string symbol fails (see the README).
     */
    static method UpdateBinance(store: MarketStore, symbol: Json, market: string, event: string, data: Json)
      returns (r: Outcome)
      requires store.Valid()
      modifies store
      ensures store.Valid()
      ensures Performs(ToEffect(var s :- Symbol(symbol); Ok([BinanceWrite(s, market, event, data)])),
                       old(store.contents), store.contents, r)
    {
      if !symbol.JStr? {
        return Fail(WrongType);
      }
      store.UpdateMarketData("binance", symbol.s, market, event, data);
      r := Pass;
    }

    /** The body the single-write handlers share: read "s", then write the whole record. */
    static method RecordHandler(store: MarketStore, message: map<string, Json>, market: string, event: string)
      returns (r: Outcome)
      requires store.Valid()
      modifies store
      ensures store.Valid()
      ensures Performs(ToEffect(RecordWrite(message, market, event)), old(store.contents), store.contents, r)
    {
      if "s" !in message {
        return Fail(MissingField("s"));
      }
      r := UpdateBinance(store, message["s"], market, event, JObj(message));
    }

    /** `_agg_trade_handler`: the record under the connection's market. */
    static method AggTradeHandler(store: MarketStore, message: map<string, Json>, market: Segment)
      returns (r: Outcome)
      requires store.Valid()
      modifies store
      ensures store.Valid()
      ensures Performs(ToEffect(Body(AggTrade, message, market)), old(store.contents), store.contents, r)
    {
      r := RecordHandler(store, message, market.Name(), "aggTrade");
    }

    /** `_trade_handler`: the record under "spot", whatever the connection. */
    static method TradeHandler(store: MarketStore, message: map<string, Json>)
      returns (r: Outcome)
      requires store.Valid()
      modifies store
      ensures store.Valid()
      ensures forall market: Segment {:trigger Body(Trade, message, market)} ::
        Performs(ToEffect(Body(Trade, message, market)), old(store.contents), store.contents, r)
    {
      r := RecordHandler(store, message, "spot", "trade");
    }

    /** `_ticker_handler`. */
    static method TickerHandler(store: MarketStore, message: map<string, Json>, market: Segment)
      returns (r: Outcome)
      requires store.Valid()
      modifies store
      ensures store.Valid()
      ensures Performs(ToEffect(Body(Ticker, message, market)), old(store.contents), store.contents, r)
    {
      r := RecordHandler(store, message, market.Name(), "ticker");
    }

    /** `_miniticker_handler`. */
    static method MiniTickerHandler(store: MarketStore, message: map<string, Json>, market: Segment)
      returns (r: Outcome)
      requires store.Valid()
      modifies store
      ensures store.Valid()
      ensures Performs(ToEffect(Body(MiniTicker, message, market)), old(store.contents), store.contents, r)
    {
      r := RecordHandler(store, message, market.Name(), "miniTicker");
    }

    /** `_spot_book_ticker_handler`: the record under "spot". */
    static method SpotBookTickerHandler(store: MarketStore, message: map<string, Json>)
      returns (r: Outcome)
      requires store.Valid()
      modifies store
      ensures store.Valid()
      ensures forall market: Segment {:trigger Body(SpotBookTicker, message, market)} ::
        Performs(ToEffect(Body(SpotBookTicker, message, market)), old(store.contents), store.contents, r)
    {
      r := RecordHandler(store, message, "spot", "bookTicker");
    }

    /** `_depth_handler`. */
    static method DepthHandler(store: MarketStore, message: map<string, Json>, market: Segment)
      returns (r: Outcome)
      requires store.Valid()
      modifies store
      ensures store.Valid()
      ensures Performs(ToEffect(Body(Depth, message, market)), old(store.contents), store.contents, r)
    {
      r := RecordHandler(store, message, market.Name(), "depth");
    }

    /** `_um_book_ticker_handler`: the record under "um". */
    static method UmBookTickerHandler(store: MarketStore, message: map<string, Json>)
      returns (r: Outcome)
      requires store.Valid()
      modifies store
      ensures store.Valid()
      ensures forall market: Segment {:trigger Body(UmBookTicker, message, market)} ::
        Performs(ToEffect(Body(UmBookTicker, message, market)), old(store.contents), store.contents, r)
    {
      r := RecordHandler(store, message, "um", "bookTicker");
    }

    /** `_kline_handler`. */
    static method KlineHandler(store: MarketStore, message: map<string, Json>, market: Segment)
      returns (r: Outcome)
      requires store.Valid()
      modifies store
      ensures store.Valid()
      ensures Performs(ToEffect(Body(Kline, message, market)), old(store.contents), store.contents, r)
    {
      if "s" !in message {
        return Fail(MissingField("s"));
      }
      if "k" !in message {
        return Fail(MissingField("k"));
      }
      var k := message["k"];
      if !k.JObj? {
        return Fail(WrongType);
      }
      if "i" !in k.fields {
        return Fail(MissingField("i"));
      }
      var interval := PyStr(k.fields["i"]);
      if !message["s"].JStr? || interval.None? {
        return Fail(WrongType);
      }
      r := UpdateBinance(store, message["s"], market.Name(), "kline__" + interval.value, JObj(message));
    }

    /** `_mark_price_update_handler`: four writes under segment "um". */
    static method MarkPriceUpdateHandler(store: MarketStore, message: map<string, Json>)
      returns (r: Outcome)
      requires store.Valid()
      modifies store
      ensures store.Valid()
      ensures Performs(ToEffect(Body(MarkPriceUpdate, message, Um)), old(store.contents), store.contents, r)
    {
      if "s" !in message {
        return Fail(MissingField("s"));
      }
      if "p" !in message {
        return Fail(MissingField("p"));
      }
      if "r" !in message {
        return Fail(MissingField("r"));
      }
      if "T" !in message {
        return Fail(MissingField("T"));
      }
      var symbol := message["s"];
      if !symbol.JStr? {
        return Fail(WrongType);
      }
      ghost var before := store.contents;
      ghost var ws := Body(MarkPriceUpdate, message, Um).value;
      WriteMarkPrice(store, symbol.s, message);
      r := Pass;
      ApplyFour(before, ws);
    }

    /** The four `update_market_data` calls of `_mark_price_update_handler`, in order. */
    static method WriteMarkPrice(store: MarketStore, symbol: string, message: map<string, Json>)
      requires store.Valid()
      requires "p" in message && "r" in message && "T" in message
      modifies store
      ensures store.Valid()
      ensures store.contents ==
        old(store.contents)[Coord("binance", symbol, "um", "markPriceUpdate") := JObj(message)]
                           [Coord("binance", symbol, "um", "markPrice") := message["p"]]
                           [Coord("binance", symbol, "um", "fundingRate") := message["r"]]
                           [Coord("binance", symbol, "um", "nextFundingTime") := message["T"]]
    {
      store.UpdateMarketData("binance", symbol, "um", "markPriceUpdate", JObj(message));
      store.UpdateMarketData("binance", symbol, "um", "markPrice", message["p"]);
      store.UpdateMarketData("binance", symbol, "um", "fundingRate", message["r"]);
      store.UpdateMarketData("binance", symbol, "um", "nextFundingTime", message["T"]);
    }

    /** `handler(data_point, market=market)` for the handler `h` the table chose. */
    static method CallHandler(store: MarketStore, h: Handler, message: map<string, Json>, market: Segment)
      returns (r: Outcome)
      requires store.Valid()
      modifies store
      ensures store.Valid()
      ensures Performs(ToEffect(Invoke(h, message, market)), old(store.contents), store.contents, r)
    {
      if SignatureOf(h) == MessageOnly {
        return Fail(UnexpectedKeyword);
      }
      match h {
        case AggTrade => r := AggTradeHandler(store, message, market);
        case Trade => r := TradeHandler(store, message);
        case Kline => r := KlineHandler(store, message, market);
        case Ticker => r := TickerHandler(store, message, market);
        case MiniTicker => r := MiniTickerHandler(store, message, market);
        case SpotBookTicker => r := SpotBookTickerHandler(store, message);
        case Depth => r := DepthHandler(store, message, market);
        case MarkPriceUpdate => r := MarkPriceUpdateHandler(store, message);
        case UmBookTicker => r := UmBookTickerHandler(store, message);
        case _ => r := Fail(NotImplemented);
      }
    }

    /** `_handle_single_data_point`. */
    method HandleSingleDataPoint(store: MarketStore, point: Json, market: Segment, streamName: Json)
      returns (r: Outcome)
      requires Valid() && store.Valid()
      modifies store
      ensures store.Valid()
      ensures Performs(ToEffect(Dispatch(point, market, streamName)), old(store.contents), store.contents, r)
    {
      if !point.JObj? {
        return Fail(WrongType);
      }
      assert market == Spot || market == Um;
      var handler := Resolve(handlerTree[market], point.fields, streamName);
      if handler.Err? {
        return Fail(handler.error);
      }
      r := CallHandler(store, handler.value, point.fields, market);
    }

    /** `_handle_multiple_data_points`: the records in list order; a raise ends the loop. */
    method HandleMultipleDataPoints(store: MarketStore, points: seq<Json>, market: Segment, streamName: Json)
      returns (r: Outcome)
      requires Valid() && store.Valid()
      modifies store
      ensures store.Valid()
      ensures Performs(DispatchBatch(points, market, streamName), old(store.contents), store.contents, r)
    {
      ghost var done: seq<Write> := [];
      var i := 0;
      while i < |points|
        invariant 0 <= i <= |points|
        invariant store.Valid()
        invariant store.contents == ApplyWrites(old(store.contents), done)
        invariant DispatchBatch(points, market, streamName) ==
          Effect(done + DispatchBatch(points[i..], market, streamName).writes,
                 DispatchBatch(points[i..], market, streamName).outcome)
      {
        BatchStep(points, market, streamName, i, done);
        var outcome := HandleSingleDataPoint(store, points[i], market, streamName);
        if outcome.Fail? {
          return outcome;
        }
        ApplyWritesAppend(old(store.contents), done, Dispatch(points[i], market, streamName).value);
        done := done + Dispatch(points[i], market, streamName).value;
        i := i + 1;
      }
      assert done + [] == done;
      r := Pass;
    }

    /** `_handle_error`: reports the exchange's code and message and pauses; only a dict has `.get`. */
    static method HandleError(error: Json) returns (r: Outcome)
      ensures r == Pass <==> error.JObj?
      ensures r != Pass ==> r == Fail(WrongType)
    {
      if error.JObj? {
        r := Pass;
      } else {
        r := Fail(WrongType);
      }
    }

    /**
     * `_handle_full_message` on a decoded message: data messages are
     * dispatched, anything else goes to the error path; `notified` is the
     * argument the callback is called with, if it is called.
     */
    method HandleFullMessage(store: MarketStore, message: Json, market: Segment)
      returns (r: Outcome, notified: Option<Json>)
      requires Valid() && store.Valid()
      modifies store
      ensures store.Valid()
      ensures Performs(DispatchMessage(message, market), old(store.contents), store.contents, r)
      ensures notified == Notification(message, callback, r)
    {
      if message.JObj? && "data" in message.fields && "stream" in message.fields {
        var data := message.fields["data"];
        var streamName := message.fields["stream"];
        if data.JArr? {
          r := HandleMultipleDataPoints(store, data.items, market, streamName);
        } else {
          r := HandleSingleDataPoint(store, data, market, streamName);
        }
      } else {
        r := HandleError(message);
      }
      notified := if callback && r == Pass then Some(message) else None;
    }
  }
}
