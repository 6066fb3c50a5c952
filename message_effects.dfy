/**
 * What one decoded combined-stream message `{"stream": ..., "data": ...}`
 * does to the market-data store, for the payload shapes Binance sends.
 */
module MessageEffects {

  import opened Wrappers
  import opened JsonValues
  import opened MarketData
  import opened MessageHandler

  /** A combined-stream envelope. */
  function Envelope(stream: string, data: Json): Json {
    JObj(map["stream" := JStr(stream), "data" := data])
  }

  /** An envelope whose data is not a list carries a single record. */
  lemma SingleEnvelope(stream: string, data: Json, market: Segment)
    requires !data.JArr?
    ensures DispatchMessage(Envelope(stream, data), market) == ToEffect(Dispatch(data, market, JStr(stream)))
  {
    var fields := map["stream" := JStr(stream), "data" := data];
    assert "data" in fields && "stream" in fields && fields["data"] == data;
  }

  /** An envelope whose data is a list is a batch. */
  lemma BatchEnvelope(stream: string, points: seq<Json>, market: Segment)
    ensures DispatchMessage(Envelope(stream, JArr(points)), market) == DispatchBatch(points, market, JStr(stream))
  {
    var fields := map["stream" := JStr(stream), "data" := JArr(points)];
    assert "data" in fields && "stream" in fields && fields["data"] == JArr(points);
  }

  /**
   * A batch message reaches a given callback exactly when every one of its
   * records dispatches without a raise; the callback then receives the
   * whole decoded message.
   */
  lemma BatchMessageCallback(stream: string, points: seq<Json>, market: Segment, hasCallback: bool)
    ensures var message := Envelope(stream, JArr(points));
      var notified := Notification(message, hasCallback, DispatchMessage(message, market).outcome);
      (notified.Some? <==> hasCallback && forall j | 0 <= j < |points| :: Dispatch(points[j], market, JStr(stream)).Ok?) &&
      (notified.Some? ==> notified.value == message)
  {
    BatchEnvelope(stream, points, market);
    BatchOutcome(points, market, JStr(stream));
  }

  /** A two-record batch whose second record fails performs the first record's writes only. */
  lemma BatchOfTwo(first: Json, second: Json, market: Segment, streamName: Json)
    requires Dispatch(first, market, streamName).Ok? && Dispatch(second, market, streamName).Err?
    ensures DispatchBatch([first, second], market, streamName) ==
      Effect(Dispatch(first, market, streamName).value, Fail(Dispatch(second, market, streamName).error))
  {
    assert [first, second][1..] == [second];
    assert Dispatch(first, market, streamName).value + [] == Dispatch(first, market, streamName).value;
  }

  /** The effect of one record on a store: the store after its writes. */
  lemma OneWrite(m: map<Coord, Json>, w: Write)
    ensures ApplyWrites(m, [w]) == m[w.coord := w.value]
  {
    ApplyWritesSnoc(m, [], w);
  }

  /** An aggregate-trade record, in either market, is stored verbatim under its symbol and that market. */
  lemma AggTradeMessage(m: map<Coord, Json>, stream: string, record: map<string, Json>, market: Segment, symbol: string)
    requires "e" in record && record["e"] == JStr("aggTrade")
    requires "s" in record && record["s"] == JStr(symbol)
    ensures var e := DispatchMessage(Envelope(stream, JObj(record)), market);
      e.outcome == Pass &&
      ApplyWrites(m, e.writes) == m[Coord("binance", symbol, market.Name(), "aggTrade") := JObj(record)]
  {
    var w := BinanceWrite(symbol, market.Name(), "aggTrade", JObj(record));
    SingleEnvelope(stream, JObj(record), market);
    SharedTradeTypes(market);
    DispatchExplicit(record, market, JStr(stream), "aggTrade");
    SingleRecordWrites(record, market, symbol);
    assert Dispatch(JObj(record), market, JStr(stream)) == Ok([w]);
    OneWrite(m, w);
  }

  /** A kline message is stored once, under "kline__" followed by its interval. */
  lemma KlineMessage(stream: string, record: map<string, Json>, market: Segment, symbol: string, interval: string)
    requires "e" in record && record["e"] == JStr("kline") && "s" in record && record["s"] == JStr(symbol)
    requires "k" in record && record["k"].JObj? && "i" in record["k"].fields && record["k"].fields["i"] == JStr(interval)
    ensures DispatchMessage(Envelope(stream, JObj(record)), market) ==
      Effect([Write(Coord("binance", symbol, market.Name(), "kline__" + interval), JObj(record))], Pass)
  {
    var w := Write(Coord("binance", symbol, market.Name(), "kline__" + interval), JObj(record));
    SharedTradeTypes(market);
    DispatchExplicit(record, market, JStr(stream), "kline");
    KlineWrites(record, market, symbol, interval);
    assert Dispatch(JObj(record), market, JStr(stream)) == Ok([w]);
    SingleEnvelope(stream, JObj(record), market);
  }

  /**
   * Two kline messages of one symbol with different intervals: after both,
   * each record is readable at its own "kline__<interval>" coordinate.
   */
  lemma KlineMessages(m: map<Coord, Json>, stream: string, market: Segment, symbol: string,
                      r1: map<string, Json>, i1: string, r2: map<string, Json>, i2: string)
    requires i1 != i2
    requires "e" in r1 && r1["e"] == JStr("kline") && "s" in r1 && r1["s"] == JStr(symbol)
    requires "k" in r1 && r1["k"].JObj? && "i" in r1["k"].fields && r1["k"].fields["i"] == JStr(i1)
    requires "e" in r2 && r2["e"] == JStr("kline") && "s" in r2 && r2["s"] == JStr(symbol)
    requires "k" in r2 && r2["k"].JObj? && "i" in r2["k"].fields && r2["k"].fields["i"] == JStr(i2)
    ensures var ws := DispatchMessage(Envelope(stream, JObj(r1)), market).writes
                    + DispatchMessage(Envelope(stream, JObj(r2)), market).writes;
      var after := ApplyWrites(m, ws);
      var c1 := Coord("binance", symbol, market.Name(), "kline__" + i1);
      var c2 := Coord("binance", symbol, market.Name(), "kline__" + i2);
      c1 != c2 && c1 in after && after[c1] == JObj(r1) && c2 in after && after[c2] == JObj(r2)
  {
    var c1 := Coord("binance", symbol, market.Name(), "kline__" + i1);
    var c2 := Coord("binance", symbol, market.Name(), "kline__" + i2);
    KlineMessage(stream, r1, market, symbol, i1);
    KlineMessage(stream, r2, market, symbol, i2);
    KlineWrites(r1, market, symbol, i1);
    KlineWrites(r2, market, symbol, i2);
    KlineIntervalsDistinct(r1, r2, market);
    ApplyWritesSnoc(m, [Write(c1, JObj(r1))], Write(c2, JObj(r2)));
    OneWrite(m, Write(c1, JObj(r1)));
  }

  /** A mark-price message populates four coordinates: the record and three of its fields. */
  lemma MarkPriceMessage(m: map<Coord, Json>, stream: string, record: map<string, Json>, symbol: string)
    requires "e" in record && record["e"] == JStr("markPriceUpdate")
    requires "s" in record && record["s"] == JStr(symbol)
    requires "p" in record && "r" in record && "T" in record
    ensures var e := DispatchMessage(Envelope(stream, JObj(record)), Um);
      e.outcome == Pass &&
      ApplyWrites(m, e.writes) == m[Coord("binance", symbol, "um", "markPriceUpdate") := JObj(record)]
                                   [Coord("binance", symbol, "um", "markPrice") := record["p"]]
                                   [Coord("binance", symbol, "um", "fundingRate") := record["r"]]
                                   [Coord("binance", symbol, "um", "nextFundingTime") := record["T"]]
  {
    SingleEnvelope(stream, JObj(record), Um);
    DispatchExplicit(record, Um, JStr(stream), "markPriceUpdate");
    MarkPriceWrites(record, Um, symbol);
    ApplyFour(m, Invoke(MarkPriceUpdate, record, Um).value);
  }

  /**
   * A book-ticker record without "e" on a stream whose name contains
   * "bookTicker" but not "depth" is stored under the connection's segment.
   */
  lemma BookTickerMessage(stream: string, record: map<string, Json>, market: Segment, symbol: string)
    requires "e" !in record
    requires "s" in record && record["s"] == JStr(symbol)
    requires Contains(stream, "bookTicker") && !Contains(stream, "depth")
    ensures DispatchMessage(Envelope(stream, JObj(record)), market) ==
      Effect([Write(Coord("binance", symbol, market.Name(), "bookTicker"), JObj(record))], Pass)
  {
    SingleEnvelope(stream, JObj(record), market);
    InferredTypesRegistered(record, stream);
    SingleRecordWrites(record, market, symbol);
  }

  /**
   * A partial-depth snapshot carries neither "e" nor "s": on a spot
   * connection the stream name routes it to the depth handler, whose read of
   * "s" raises KeyError; on a futures connection the futures depth handler
   * rejects the `market` keyword.
   */
  lemma PartialDepthMessage(stream: string, record: map<string, Json>)
    requires "e" !in record && "s" !in record
    requires Contains(stream, "depth")
    ensures DispatchMessage(Envelope(stream, JObj(record)), Spot) == Effect([], Fail(MissingField("s")))
    ensures DispatchMessage(Envelope(stream, JObj(record)), Um) == Effect([], Fail(UnexpectedKeyword))
  {
    SingleEnvelope(stream, JObj(record), Spot);
    SingleEnvelope(stream, JObj(record), Um);
    InferredTypesRegistered(record, stream);
  }

  /**
   * A batch of a valid aggregate trade followed by a record with an
   * unregistered event type: the trade is stored, then the batch stops with
   * the unknown-event failure.
   */
  lemma ValidThenUnknownBatch(stream: string, market: Segment, good: map<string, Json>, symbol: string,
                              bad: map<string, Json>, ev: string)
    requires "e" in good && good["e"] == JStr("aggTrade") && "s" in good && good["s"] == JStr(symbol)
    requires "e" in bad && bad["e"] == JStr(ev) && ev != "" && ev !in Handlers(market)
    ensures DispatchMessage(Envelope(stream, JArr([JObj(good), JObj(bad)])), market) ==
      Effect([Write(Coord("binance", symbol, market.Name(), "aggTrade"), JObj(good))], Fail(UnknownEventType))
  {
    var points := [JObj(good), JObj(bad)];
    var w := BinanceWrite(symbol, market.Name(), "aggTrade", JObj(good));
    BatchEnvelope(stream, points, market);
    SharedTradeTypes(market);
    DispatchExplicit(good, market, JStr(stream), "aggTrade");
    SingleRecordWrites(good, market, symbol);
    assert Dispatch(JObj(good), market, JStr(stream)) == Ok([w]);
    ExplicitEventType(Handlers(market), bad, JStr(stream), ev);
    assert Dispatch(JObj(bad), market, JStr(stream)) == Err(UnknownEventType);
    BatchOfTwo(JObj(good), JObj(bad), market, JStr(stream));
  }
}
