/**
 * Stream subscription of crypto_bot/binance/binance_client.py: the
 * combined-stream names `stream_pairs` builds from trading pairs and stream
 * types, and the subscribe calls `start_stream` issues on the spot and the
 * USD-M futures websocket clients. A subscribe call is returned as a value.
 */
module BinanceClient {

  import opened Wrappers
  import opened MessageHandler

  /** One `subscribe(stream=streams)` call on the websocket client of `segment`. */
  datatype Subscription = Subscription(segment: Segment, streams: seq<string>)

  /** `f"{pair}@{type}"`. */
  function StreamName(pair: string, streamType: string): string {
    pair + "@" + streamType
  }

  /** The stream types used: an empty list means aggregate trades only. */
  function EffectiveTypes(types: seq<string>): (r: seq<string>)
    ensures r != []
    ensures types == [] ==> r == ["aggTrade"]
    ensures types != [] ==> r == types
  {
    if types == [] then ["aggTrade"] else types
  }

  /** The streams of one pair, one per type, in the order of `types`. */
  function Row(pair: string, types: seq<string>): seq<string> {
    seq(|types|, j requires 0 <= j < |types| => StreamName(pair, types[j]))
  }

  /** The list the nested loops of `stream_pairs` build: pair-major, type-minor. */
  function CrossStreams(pairs: seq<string>, types: seq<string>): seq<string>
    decreases |pairs|
  {
    if pairs == [] then []
    else CrossStreams(pairs[..|pairs| - 1], types) + Row(pairs[|pairs| - 1], types)
  }

  /** Python truthiness of the optional list argument: given and non-empty. */
  predicate Given(streams: Option<seq<string>>) {
    streams.Some? && streams.value != []
  }

  /**
   * `start_stream(spot_streams, um_streams)`: subscribes the spot client when
   * `spot_streams` is truthy, then the futures client when `um_streams` is.
   */
  function StartStream(spotStreams: Option<seq<string>>, umStreams: Option<seq<string>>): (calls: seq<Subscription>)
    ensures |calls| <= 2
    ensures forall s :: Subscription(Spot, s) in calls <==> Given(spotStreams) && s == spotStreams.value
    ensures forall s :: Subscription(Um, s) in calls <==> Given(umStreams) && s == umStreams.value
    ensures |calls| == 2 ==> calls[0].segment == Spot && calls[1].segment == Um
  {
    (if Given(spotStreams) then [Subscription(Spot, spotStreams.value)] else [])
    + (if Given(umStreams) then [Subscription(Um, umStreams.value)] else [])
  }

  // ---------------------------------------------------------------------------
  // Properties of the stream list

  /** The list holds `|types|` names per pair. */
  lemma {:induction false} CrossStreamsLength(pairs: seq<string>, types: seq<string>)
    ensures |CrossStreams(pairs, types)| == |pairs| * |types|
    decreases |pairs|
  {
    if pairs != [] {
      var n := |pairs| - 1;
      CrossStreamsLength(pairs[..n], types);
      assert n * |types| + |types| == (n + 1) * |types|;
    }
  }

  /** The name at position `i * |types| + j` is `pairs[i]@types[j]`. */
  lemma {:induction false} CrossStreamsAt(pairs: seq<string>, types: seq<string>, i: nat, j: nat)
    requires i < |pairs| && j < |types|
    ensures i * |types| + j < |CrossStreams(pairs, types)|
    ensures CrossStreams(pairs, types)[i * |types| + j] == StreamName(pairs[i], types[j])
    decreases |pairs|
  {
    var n := |pairs| - 1;
    var init := pairs[..n];
    var prefix := CrossStreams(init, types);
    CrossStreamsLength(init, types);
    if i < n {
      CrossStreamsAt(init, types, i, j);
      assert pairs[i] == init[i];
    } else {
      assert i * |types| == |prefix|;
    }
  }

  /** Every name in the list is a pair of `pairs` joined to a type of `types`, and every such join is in the list. */
  lemma {:induction false} CrossStreamsMembers(pairs: seq<string>, types: seq<string>, name: string)
    ensures name in CrossStreams(pairs, types) <==>
      exists i, j :: 0 <= i < |pairs| && 0 <= j < |types| && name == StreamName(pairs[i], types[j])
    decreases |pairs|
  {
    if exists i, j :: 0 <= i < |pairs| && 0 <= j < |types| && name == StreamName(pairs[i], types[j]) {
      var i, j :| 0 <= i < |pairs| && 0 <= j < |types| && name == StreamName(pairs[i], types[j]);
      CrossStreamsAt(pairs, types, i, j);
    }
    if name in CrossStreams(pairs, types) {
      MemberIsJoin(pairs, types, name);
    }
  }

  lemma {:induction false} MemberIsJoin(pairs: seq<string>, types: seq<string>, name: string)
    requires name in CrossStreams(pairs, types)
    ensures exists i, j :: 0 <= i < |pairs| && 0 <= j < |types| && name == StreamName(pairs[i], types[j])
    decreases |pairs|
  {
    var n := |pairs| - 1;
    var init := pairs[..n];
    if name in CrossStreams(init, types) {
      MemberIsJoin(init, types, name);
      var i, j :| 0 <= i < |init| && 0 <= j < |types| && name == StreamName(init[i], types[j]);
      assert pairs[i] == init[i];
    } else {
      var j :| 0 <= j < |types| && Row(pairs[n], types)[j] == name;
      assert name == StreamName(pairs[n], types[j]);
    }
  }

  /** With no pairs, or no types, the list is empty. */
  lemma {:induction false} CrossStreamsEmpty(pairs: seq<string>, types: seq<string>)
    ensures CrossStreams(pairs, types) == [] <==> pairs == [] || types == []
  {
    CrossStreamsLength(pairs, types);
    if pairs != [] && types != [] {
      CrossStreamsAt(pairs, types, 0, 0);
    }
  }

  // ---------------------------------------------------------------------------
  // The client

  /**
   * `stream_pairs(pairs, types, spot, futures)`: builds the stream list with
   * two nested loops and hands it to `start_stream` for the selected segments.
   */
  method StreamPairs(pairs: seq<string>, types: seq<string>, spot: bool, futures: bool)
    returns (calls: seq<Subscription>)
    ensures var stream := CrossStreams(pairs, EffectiveTypes(types));
      calls == StartStream(if spot then Some(stream) else None, if futures then Some(stream) else None)
  {
    var ts := types;
    if ts == [] {
      ts := ["aggTrade"];
    }
    var stream: seq<string> := [];
    for i := 0 to |pairs|
      invariant stream == CrossStreams(pairs[..i], ts)
    {
      for j := 0 to |ts|
        invariant stream == CrossStreams(pairs[..i], ts) + Row(pairs[i], ts)[..j]
      {
        assert Row(pairs[i], ts)[..j + 1] == Row(pairs[i], ts)[..j] + [StreamName(pairs[i], ts[j])];
        stream := stream + [pairs[i] + "@" + ts[j]];
      }
      assert pairs[..i + 1][..i] == pairs[..i];
      assert Row(pairs[i], ts)[..|ts|] == Row(pairs[i], ts);
    }
    assert pairs[..|pairs|] == pairs;
    calls := StartStream(if spot then Some(stream) else None, if futures then Some(stream) else None);
  }

  /**
   * What `stream_pairs` subscribes: the same list on every selected segment,
   * spot first; nothing at all when there are no pairs or no segment.
   */
  lemma StreamPairsSubscriptions(pairs: seq<string>, types: seq<string>, spot: bool, futures: bool)
    ensures var stream := CrossStreams(pairs, EffectiveTypes(types));
      var calls := StartStream(if spot then Some(stream) else None, if futures then Some(stream) else None);
      (pairs == [] || (!spot && !futures) <==> calls == []) &&
      (pairs != [] ==> |calls| == (if spot then 1 else 0) + (if futures then 1 else 0)) &&
      (forall c | c in calls :: c.streams == stream && (c.segment == Spot ==> spot) && (c.segment == Um ==> futures))
  {
    CrossStreamsEmpty(pairs, EffectiveTypes(types));
  }

  /** Without stream types every pair is subscribed to its aggregate-trade stream only. */
  lemma DefaultTypes(pairs: seq<string>)
    ensures var stream := CrossStreams(pairs, EffectiveTypes([]));
      |stream| == |pairs| && forall i | 0 <= i < |pairs| :: stream[i] == StreamName(pairs[i], "aggTrade")
  {
    var types := EffectiveTypes([]);
    assert types == ["aggTrade"];
    CrossStreamsLength(pairs, types);
    forall i | 0 <= i < |pairs| ensures CrossStreams(pairs, types)[i] == StreamName(pairs[i], "aggTrade") {
      CrossStreamsAt(pairs, types, i, 0);
    }
  }
}
