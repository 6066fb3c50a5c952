/**
 * The process-wide market-data store of crypto_bot/__init__.py: a four-level
 * nested dictionary exchange -> symbol -> market type -> event type -> latest
 * value, written only by `update_market_data`.
 *
 * The nested dictionaries are the representation (`Levels`); the store's
 * abstract value is the flat map from a four-part coordinate to the value.
 * `PutAgrees` shows that a write keeps the two views in agreement and
 * `LevelsDetermined` that the flat view loses nothing.
 */
module MarketData {

  import opened Wrappers
  import opened JsonValues

  /** A store coordinate: exchange, symbol, market type, event type. */
  datatype Coord = Coord(exchange: string, symbol: string, market: string, event: string)

  /** The arguments of one `update_market_data` call. */
  datatype Write = Write(coord: Coord, value: Json)

  type Levels = map<string, map<string, map<string, map<string, Json>>>>

  /** Reading `market_data[exchange][symbol][market][event]`; None where Python raises KeyError. */
  function Lookup(n: Levels, c: Coord): Option<Json> {
    if c.exchange in n && c.symbol in n[c.exchange] && c.market in n[c.exchange][c.symbol]
       && c.event in n[c.exchange][c.symbol][c.market]
    then Some(n[c.exchange][c.symbol][c.market][c.event])
    else None
  }

  /** No market-type dictionary of one symbol is empty. */
  ghost predicate SymbolWellFormed(x: map<string, map<string, Json>>) {
    forall m | m in x :: x[m] != map[]
  }

  /** No symbol or market-type dictionary of one exchange is empty. */
  ghost predicate ExchangeWellFormed(x: map<string, map<string, map<string, Json>>>) {
    forall s | s in x :: x[s] != map[] && SymbolWellFormed(x[s])
  }

  /**
   * No intermediate dictionary is empty: every level is created on the way to
   * a leaf that is assigned in the same call.
   */
  ghost predicate WellFormed(n: Levels) {
    forall e | e in n :: n[e] != map[] && ExchangeWellFormed(n[e])
  }

  /** Reading one coordinate of the flat view. */
  function Find(m: map<Coord, Json>, c: Coord): Option<Json> {
    if c in m then Some(m[c]) else None
  }

  /** The nested dictionaries `n` and the flat map `m` hold the same leaves. */
  ghost predicate Agree(n: Levels, m: map<Coord, Json>) {
    forall c :: Lookup(n, c) == Find(m, c)
  }

  /**
   * The store after `update_market_data(c.exchange, c.symbol, c.market,
   * c.event, d)`: missing levels are created, the leaf is replaced.
   */
  function Put(n: Levels, c: Coord, d: Json): (r: Levels)
    ensures forall k :: Lookup(r, k) == if k == c then Some(d) else Lookup(n, k)
    ensures r.Keys == n.Keys + {c.exchange}
    ensures forall e | e in n && e != c.exchange :: r[e] == n[e]
  {
    n[c.exchange := PutSymbol(if c.exchange in n then n[c.exchange] else map[], c, d)]
  }

  /** `Put` within one exchange's dictionary. */
  function PutSymbol(ex: map<string, map<string, map<string, Json>>>, c: Coord, d: Json): map<string, map<string, map<string, Json>>> {
    ex[c.symbol := PutMarket(if c.symbol in ex then ex[c.symbol] else map[], c, d)]
  }

  /** `Put` within one symbol's dictionary. */
  function PutMarket(sy: map<string, map<string, Json>>, c: Coord, d: Json): map<string, map<string, Json>> {
    sy[c.market := (if c.market in sy then sy[c.market] else map[])[c.event := d]]
  }

  /** Levels are created only where absent: every dictionary that existed keeps its keys, and no level is left empty. */
  lemma PutKeepsLevels(n: Levels, c: Coord, d: Json)
    ensures var r := Put(n, c, d);
      forall e, s, m | e in n && s in n[e] && m in n[e][s] ::
        e in r && s in r[e] && m in r[e][s] && n[e][s][m].Keys <= r[e][s][m].Keys
    ensures WellFormed(n) ==> WellFormed(Put(n, c, d))
  {
    var r := Put(n, c, d);
    if WellFormed(n) {
      forall e | e in r ensures r[e] != map[] &&
        forall s | s in r[e] :: r[e][s] != map[] && forall m | m in r[e][s] :: r[e][s][m] != map[]
      {
        if e == c.exchange {
          assert c.symbol in r[e];
          forall s | s in r[e] ensures r[e][s] != map[] && forall m | m in r[e][s] :: r[e][s][m] != map[] {
            if s == c.symbol {
              assert c.market in r[e][s];
              forall m | m in r[e][s] ensures r[e][s][m] != map[] {
                if m == c.market {
                  assert c.event in r[e][s][m];
                }
              }
            }
          }
        }
      }
    }
  }

  /** The nested and the flat view agree: a nested write is a flat map update. */
  lemma PutAgrees(n: Levels, m: map<Coord, Json>, c: Coord, d: Json)
    requires Agree(n, m)
    ensures Agree(Put(n, c, d), m[c := d])
  {
  }

  /** Two nested stores hold the same value at every coordinate. */
  ghost predicate SameLeaves(a: Levels, b: Levels) {
    forall c :: Lookup(a, c) == Lookup(b, c)
  }

  /** Two stores with the same leaves agree on one market-type dictionary present in both. */
  lemma SameMarket(a: Levels, b: Levels, e: string, s: string, m: string)
    requires SameLeaves(a, b)
    requires e in a && s in a[e] && m in a[e][s]
    requires e in b && s in b[e] && m in b[e][s]
    ensures a[e][s][m] == b[e][s][m]
  {
    forall t | t in a[e][s][m] ensures t in b[e][s][m] && a[e][s][m][t] == b[e][s][m][t] {
      assert Lookup(a, Coord(e, s, m, t)) == Lookup(b, Coord(e, s, m, t));
    }
    forall t | t in b[e][s][m] ensures t in a[e][s][m] {
      assert Lookup(a, Coord(e, s, m, t)) == Lookup(b, Coord(e, s, m, t));
    }
  }

  /** A level that is present and non-empty in `a` is present in any store with the same leaves. */
  lemma MarketPresent(a: Levels, b: Levels, e: string, s: string, m: string)
    requires SameLeaves(a, b)
    requires e in a && s in a[e] && m in a[e][s] && a[e][s][m] != map[]
    ensures e in b && s in b[e] && m in b[e][s]
  {
    var t :| t in a[e][s][m];
    assert Lookup(a, Coord(e, s, m, t)) == Lookup(b, Coord(e, s, m, t));
  }

  lemma SameSymbol(a: Levels, b: Levels, e: string, s: string)
    requires SameLeaves(a, b)
    requires e in a && s in a[e] && e in b && s in b[e]
    requires SymbolWellFormed(a[e][s]) && SymbolWellFormed(b[e][s])
    ensures a[e][s] == b[e][s]
  {
    forall m | m in a[e][s] ensures m in b[e][s] && a[e][s][m] == b[e][s][m] {
      MarketPresent(a, b, e, s, m);
      SameMarket(a, b, e, s, m);
    }
    forall m | m in b[e][s] ensures m in a[e][s] {
      MarketPresent(b, a, e, s, m);
    }
  }

  lemma SameExchange(a: Levels, b: Levels, e: string)
    requires SameLeaves(a, b)
    requires e in a && e in b
    requires ExchangeWellFormed(a[e]) && ExchangeWellFormed(b[e])
    ensures a[e] == b[e]
  {
    forall s | s in a[e] ensures s in b[e] && a[e][s] == b[e][s] {
      var m :| m in a[e][s];
      MarketPresent(a, b, e, s, m);
      SameSymbol(a, b, e, s);
    }
    forall s | s in b[e] ensures s in a[e] {
      var m :| m in b[e][s];
      MarketPresent(b, a, e, s, m);
    }
  }

  /** An exchange dictionary that is well formed and non-empty in `a` is present in any store with the same leaves. */
  lemma ExchangePresent(a: Levels, b: Levels, e: string)
    requires SameLeaves(a, b)
    requires e in a && a[e] != map[] && ExchangeWellFormed(a[e])
    ensures e in b
  {
    var s :| s in a[e];
    var m :| m in a[e][s];
    MarketPresent(a, b, e, s, m);
  }

  /**
   * The flat view loses nothing: two well-formed stores with the same leaves
   * are the same nested dictionaries.
   */
  lemma LevelsDetermined(a: Levels, b: Levels)
    requires WellFormed(a) && WellFormed(b)
    requires SameLeaves(a, b)
    ensures a == b
  {
    forall e | e in a ensures e in b && a[e] == b[e] {
      ExchangePresent(a, b, e);
      SameExchange(a, b, e);
    }
    forall e | e in b ensures e in a {
      ExchangePresent(b, a, e);
    }
  }

  /** Last write wins: a second write to a coordinate replaces the first wholesale. */
  lemma PutLastWriteWins(n: Levels, c: Coord, first: Json, second: Json)
    ensures Put(Put(n, c, first), c, second) == Put(n, c, second)
  {
    var ex := if c.exchange in n then n[c.exchange] else map[];
    PutSymbolTwice(ex, c, first, second);
  }

  lemma PutSymbolTwice(ex: map<string, map<string, map<string, Json>>>, c: Coord, first: Json, second: Json)
    ensures PutSymbol(PutSymbol(ex, c, first), c, second) == PutSymbol(ex, c, second)
  {
    var sy := if c.symbol in ex then ex[c.symbol] else map[];
    PutMarketTwice(sy, c, first, second);
  }

  lemma PutMarketTwice(sy: map<string, map<string, Json>>, c: Coord, first: Json, second: Json)
    ensures PutMarket(PutMarket(sy, c, first), c, second) == PutMarket(sy, c, second)
  {
    var mk := if c.market in sy then sy[c.market] else map[];
    assert mk[c.event := first][c.event := second] == mk[c.event := second];
  }

  /** Writing the same value to the same coordinate twice is writing it once. */
  lemma PutIdempotent(n: Levels, c: Coord, d: Json)
    ensures Put(Put(n, c, d), c, d) == Put(n, c, d)
  {
    PutLastWriteWins(n, c, d, d);
  }

  /** The flat map after a sequence of writes applied in order. */
  function ApplyWrites(m: map<Coord, Json>, ws: seq<Write>): map<Coord, Json>
    decreases |ws|
  {
    if ws == [] then m else ApplyWrites(m[ws[0].coord := ws[0].value], ws[1..])
  }

  /** The value of the last write to `c` in `ws`, if any. */
  function LastWrite(ws: seq<Write>, c: Coord): Option<Json>
    decreases |ws|
  {
    if ws == [] then None
    else if ws[|ws| - 1].coord == c then Some(ws[|ws| - 1].value)
    else LastWrite(ws[..|ws| - 1], c)
  }

  /** Applying `a` and then `b` is applying `a + b`. */
  lemma {:induction false} ApplyWritesAppend(m: map<Coord, Json>, a: seq<Write>, b: seq<Write>)
    ensures ApplyWrites(m, a + b) == ApplyWrites(ApplyWrites(m, a), b)
    decreases |a|
  {
    if a != [] {
      assert (a + b)[1..] == a[1..] + b;
      ApplyWritesAppend(m[a[0].coord := a[0].value], a[1..], b);
    } else {
      assert a + b == b;
    }
  }

  /** Applying `ws` and then one more write `w`. */
  lemma ApplyWritesSnoc(m: map<Coord, Json>, ws: seq<Write>, w: Write)
    ensures ApplyWrites(m, ws + [w]) == ApplyWrites(m, ws)[w.coord := w.value]
  {
    ApplyWritesAppend(m, ws, [w]);
    assert ApplyWrites(ApplyWrites(m, ws), [w]) == ApplyWrites(m, ws)[w.coord := w.value];
  }

  /**
   * After a sequence of writes a coordinate holds the last value written to
   * it, or its old value when the sequence never writes it.
   */
  lemma {:induction false} ApplyWritesLast(m: map<Coord, Json>, ws: seq<Write>, c: Coord)
    ensures LastWrite(ws, c).Some? ==> c in ApplyWrites(m, ws) && ApplyWrites(m, ws)[c] == LastWrite(ws, c).value
    ensures LastWrite(ws, c).None? ==> (c in ApplyWrites(m, ws) <==> c in m)
    ensures LastWrite(ws, c).None? && c in m ==> ApplyWrites(m, ws)[c] == m[c]
    decreases |ws|
  {
    if ws != [] {
      var init, last := ws[..|ws| - 1], ws[|ws| - 1];
      assert ws == init + [last];
      ApplyWritesSnoc(m, init, last);
      ApplyWritesLast(m, init, c);
    }
  }

  /**
   * A store built from empty by a sequence of writes holds exactly the
   * coordinates written, each with the last value written to it.
   */
  lemma FromEmpty(ws: seq<Write>, c: Coord)
    ensures c in ApplyWrites(map[], ws) <==> LastWrite(ws, c).Some?
    ensures c in ApplyWrites(map[], ws) ==> ApplyWrites(map[], ws)[c] == LastWrite(ws, c).value
  {
    ApplyWritesLast(map[], ws, c);
  }

  /** A written coordinate stays present: no write removes an entry. */
  lemma {:induction false} ApplyWritesKeepsKeys(m: map<Coord, Json>, ws: seq<Write>)
    ensures m.Keys <= ApplyWrites(m, ws).Keys
    decreases |ws|
  {
    if ws != [] {
      ApplyWritesKeepsKeys(m[ws[0].coord := ws[0].value], ws[1..]);
    }
  }

  /** Performing the same writes twice leaves the store as performing them once. */
  lemma ApplyWritesTwice(m: map<Coord, Json>, ws: seq<Write>)
    ensures ApplyWrites(ApplyWrites(m, ws), ws) == ApplyWrites(m, ws)
  {
    var once := ApplyWrites(m, ws);
    var twice := ApplyWrites(once, ws);
    forall c ensures (c in twice <==> c in once) && (c in once ==> twice[c] == once[c]) {
      ApplyWritesLast(m, ws, c);
      ApplyWritesLast(once, ws, c);
    }
  }

  /**
   * The body of `update_market_data` on the dictionary value: when all three
   * intermediate levels exist the leaf is assigned directly; otherwise each
   * missing level is created in turn (the leaf first as an empty dictionary)
   * and the leaf is then assigned.
   */
  method UpdateLevels(n: Levels, exchange: string, symbol: string, marketType: string, eventType: string, data: Json)
    returns (levels: Levels)
    ensures levels == Put(n, Coord(exchange, symbol, marketType, eventType), data)
  {
    levels := n;
    ghost var ex0 := if exchange in n then n[exchange] else map[];
    ghost var sy0 := if symbol in ex0 then ex0[symbol] else map[];
    ghost var mk0 := if marketType in sy0 then sy0[marketType] else map[];
    if exchange in levels && symbol in levels[exchange] && marketType in levels[exchange][symbol] {
      var ex := levels[exchange];
      var sy := ex[symbol];
      var mk := sy[marketType];
      levels := levels[exchange := ex[symbol := sy[marketType := mk[eventType := data]]]];
    } else {
      if exchange !in levels {
        levels := levels[exchange := map[]];
      }
      assert levels[exchange] == ex0;
      if symbol !in levels[exchange] {
        levels := levels[exchange := levels[exchange][symbol := map[]]];
      }
      assert levels[exchange] == ex0[symbol := sy0];
      if marketType !in levels[exchange][symbol] {
        levels := levels[exchange := levels[exchange][symbol := levels[exchange][symbol][marketType := map[]]]];
      }
      assert marketType in sy0 ==> sy0[marketType := mk0] == sy0;
      assert levels[exchange] == ex0[symbol := sy0[marketType := mk0]];
      var ex := levels[exchange];
      var sy := ex[symbol];
      var mk := sy[marketType];
      if eventType !in mk {
        mk := mk[eventType := JObj(map[])];
      }
      assert mk[eventType := data] == mk0[eventType := data];
      levels := levels[exchange := ex[symbol := sy[marketType := mk[eventType := data]]]];
      assert sy[marketType := mk[eventType := data]] == sy0[marketType := mk0[eventType := data]];
      assert ex[symbol := sy[marketType := mk[eventType := data]]] == ex0[symbol := sy0[marketType := mk0[eventType := data]]];
    }
  }

  /** The global `market_data` dictionary and its single writer. */
  class MarketStore {
    var levels: Levels
    /** The flat view of `levels`: one entry per written coordinate. */
    ghost var contents: map<Coord, Json>

    /**
     * The nested dictionaries hold exactly the flat view's leaves. A store
     * that starts from the constructor and is written only through
     * `UpdateMarketData` also keeps every intermediate dictionary non-empty
     * (`WellFormed`, see that method's contract), and two such stores with
     * the same flat view are the same dictionary (`LevelsDetermined`). The
     * handler methods that write through it do not carry `WellFormed` in
     * their own contracts.
     */
    ghost predicate Valid()
      reads this
    {
      Agree(levels, contents)
    }

    /** A point read of one coordinate, `market_data[exchange][symbol][market][event]`. */
    function Get(c: Coord): (r: Option<Json>)
      requires Valid()
      reads this
      ensures r.Some? <==> c in contents
      ensures r.Some? ==> r.value == contents[c]
    {
      Lookup(levels, c)
    }

    /** `market_data = {}`: the store starts empty. */
    constructor ()
      ensures Valid() && contents == map[] && levels == map[]
      ensures WellFormed(levels)
    {
      levels := map[];
      contents := map[];
    }

    /** `update_market_data` on the global store: creates missing levels, replaces the leaf. */
    method UpdateMarketData(exchange: string, symbol: string, marketType: string, eventType: string, data: Json)
      requires Valid()
      modifies this
      ensures Valid()
      ensures levels == Put(old(levels), Coord(exchange, symbol, marketType, eventType), data)
      ensures contents == old(contents)[Coord(exchange, symbol, marketType, eventType) := data]
      ensures WellFormed(old(levels)) ==> WellFormed(levels)
    {
      ghost var c := Coord(exchange, symbol, marketType, eventType);
      PutAgrees(levels, contents, c, data);
      PutKeepsLevels(levels, c, data);
      levels := UpdateLevels(levels, exchange, symbol, marketType, eventType, data);
      contents := contents[c := data];
    }
  }
}
