/** The in-memory market state: one bounded candle window per symbol and timeframe. */
module MarketState {
  import opened Wrappers
  import opened CandleWindow
  import PySeq
  import Symbols

  datatype Key = Key(symbol: string, timeframe: string)

  /** A connector snapshot; `ohlc` is None when the payload holds no candle list. */
  datatype Snapshot = Snapshot(symbol: string, timeframe: string, ohlc: Option<seq<Candle>>)

  function KeyOf(symbol: string, timeframe: string): Key {
    Key(Symbols.Upper(symbol), Symbols.Upper(timeframe))
  }

  function Incoming(s: Snapshot): seq<Candle> {
    if s.ohlc.Some? then s.ohlc.value else []
  }

  /** The text under which a window is stored. */
  function KeyText(k: Key): string {
    k.symbol + "::" + k.timeframe
  }

  function BeforeColon(s: string): string {
    if s == "" || s[0] == ':' then "" else [s[0]] + BeforeColon(s[1..])
  }

  lemma {:induction false} BeforeColonIs(symbol: string, rest: string)
    requires ':' !in symbol
    ensures BeforeColon(symbol + ":" + rest) == symbol
  {
    if symbol != "" {
      BeforeColonIs(symbol[1..], rest);
      assert (symbol + ":" + rest)[1..] == symbol[1..] + ":" + rest;
    }
  }

  /** Storing windows under text is storing them under the pair, for symbols without a colon:
      the removal prefix selects exactly the keys of one symbol. */
  lemma PrefixSelectsSymbol(k: Key, symbol: string)
    requires ':' !in k.symbol && ':' !in symbol
    ensures symbol + "::" <= KeyText(k) <==> k.symbol == symbol
  {
    var text := KeyText(k);
    assert text == k.symbol + ":" + (":" + k.timeframe);
    BeforeColonIs(k.symbol, ":" + k.timeframe);
    if symbol + "::" <= text {
      assert text == symbol + ":" + (":" + text[|symbol| + 2..]);
      BeforeColonIs(symbol, ":" + text[|symbol| + 2..]);
    }
  }

  lemma KeyTextInjective(k: Key, l: Key)
    requires ':' !in k.symbol && ':' !in l.symbol && KeyText(k) == KeyText(l)
    ensures k == l
  {
    assert k.symbol + "::" <= KeyText(l);
    PrefixSelectsSymbol(l, k.symbol);
    assert k.timeframe == KeyText(k)[|k.symbol| + 2..] == l.timeframe;
  }

  /** What a deque of bound n holds after every candle of h was merged into it. */
  ghost function Rolling(h: seq<Candle>, n: nat): seq<Candle> {
    PySeq.Newest(Window(h, n), n)
  }

  /** A rolling window is the final cut of the unbounded history; a zero bound keeps nothing. */
  lemma RollingIsWindow(h: seq<Candle>, n: nat)
    ensures Rolling(h, n) == if n == 0 then [] else Window(h, n)
  {
    if n > 0 { WindowIsNewest(h, n); }
  }

  lemma RollingStep(h: seq<Candle>, b: seq<Candle>, n: nat)
    ensures PySeq.Newest(Window(Rolling(h, n) + b, n), n) == Rolling(h + b, n)
  {
    RollingIsWindow(h, n);
    RollingIsWindow(h + b, n);
    if n > 0 {
      MergeIsIncremental(h, b, n);
    }
  }

  /** Reading fewer bars than are kept gives the window a smaller bound would have kept. */
  lemma ReadingIsSmallerWindow(h: seq<Candle>, n: nat, bars: nat)
    requires n > 0 && bars > 0
    ensures PySeq.Tail(Rolling(h, n), bars) == Rolling(h, if bars < n then bars else n)
  {
    RollingIsWindow(h, n);
    RollingIsWindow(h, if bars < n then bars else n);
    WindowTail(h, n, bars);
  }

  /** What a reader of one key is given, from what was ingested for it. */
  ghost function Reading(history: map<Key, seq<Candle>>, maxBars: int, k: Key, bars: Option<int>): seq<Candle>
    requires maxBars < 0 ==> history == map[]
  {
    if k !in history || maxBars == 0 then []
    else if bars.Some? && 0 < bars.value < maxBars then Rolling(history[k], bars.value)
    else Rolling(history[k], maxBars)
  }

  /** A reader is given the newest timestamps ingested for its key, ascending, each with its last
      candle: as many as it asks for, if that is a positive number, and as are kept. */
  lemma ReadingIsNewest(history: map<Key, seq<Candle>>, maxBars: nat, k: Key, bars: Option<int>, n: nat)
    requires k in history && 0 < n <= maxBars
    requires bars.Some? && bars.value > 0 ==> n <= bars.value && (n == bars.value || n == maxBars)
    requires bars.None? || bars.value <= 0 ==> n == maxBars
    ensures var r, h := Reading(history, maxBars, k, bars), history[k];
      && (forall i, j :: 0 <= i < j < |r| ==> Before(r[i].stamp, r[j].stamp))
      && (forall c :: c in r ==> IsLastFor(c, h))
      && |r| == (if n < |Stamps(h)| then n else |Stamps(h)|)
      && (forall s, t :: s in Stamps(h) - Stamps(r) && t in Stamps(r) ==> Before(s, t))
  {
    RollingIsWindow(history[k], n);
    WindowIsNewest(history[k], n);
    assert Reading(history, maxBars, k, bars) == Window(history[k], n);
  }

  predicate Stored(states: map<Key, seq<Candle>>, k: Key) {
    k in states
  }

  /** Every stored window is the final cut of what was ingested for its key. */
  ghost predicate Faithful(states: map<Key, seq<Candle>>, history: map<Key, seq<Candle>>, maxBars: int) {
    && states.Keys == history.Keys
    && (maxBars < 0 ==> states == map[])
    && forall k {:trigger Stored(states, k)} :: Stored(states, k) && maxBars >= 0 ==> states[k] == Rolling(history[k], maxBars)
  }

  /** The entries of every other symbol. */
  function Without<V>(m: map<Key, V>, symbol: string): map<Key, V> {
    map k | k in m && k.symbol != symbol :: m[k]
  }

  lemma WithoutSize<V>(m: map<Key, V>, symbol: string)
    ensures |Without(m, symbol)| == |m| - |set k | k in m && k.symbol == symbol|
  {
    var doomed := set k | k in m && k.symbol == symbol;
    assert m.Keys == Without(m, symbol).Keys + doomed;
    assert |m.Keys| == |m|;
  }

  function HistoryOf(history: map<Key, seq<Candle>>, k: Key): seq<Candle> {
    if k in history then history[k] else []
  }

  lemma RollingStart(n: nat)
    ensures Rolling([], n) == []
  {
    assert SortedKeys(LastWrite([]).Keys) == [];
  }

  lemma StoredWindow(states: map<Key, seq<Candle>>, history: map<Key, seq<Candle>>, n: nat, k: Key)
    requires Faithful(states, history, n)
    ensures (if k in states then states[k] else []) == Rolling(HistoryOf(history, k), n)
  {
    RollingStart(n);
    assert k in states ==> Stored(states, k);
  }

  lemma FaithfulUpdate(states: map<Key, seq<Candle>>, history: map<Key, seq<Candle>>, n: nat, k: Key, seen: seq<Candle>)
    requires Faithful(states, history, n)
    ensures Faithful(states[k := Rolling(seen, n)], history[k := seen], n)
  {
    var after := states[k := Rolling(seen, n)];
    forall l | Stored(after, l) ensures after[l] == Rolling(history[k := seen][l], n) {
      assert l != k ==> Stored(states, l);
    }
  }

  lemma FaithfulWithout(states: map<Key, seq<Candle>>, history: map<Key, seq<Candle>>, maxBars: int, symbol: string)
    requires Faithful(states, history, maxBars)
    ensures Faithful(Without(states, symbol), Without(history, symbol), maxBars)
  {
    forall k | Stored(Without(states, symbol), k) && maxBars >= 0
      ensures Without(states, symbol)[k] == Rolling(Without(history, symbol)[k], maxBars)
    {
      assert Stored(states, k);
    }
  }

  class MarketStateService {
    const maxBars: int
    var states: map<Key, seq<Candle>>
    /** Every candle ingested for a key since the key was last absent. */
    ghost var history: map<Key, seq<Candle>>

    ghost predicate Valid()
      reads this
    {
      Faithful(states, history, maxBars)
    }

    constructor (maxBars: int)
      ensures Valid() && states == map[] && this.maxBars == maxBars
    {
      this.maxBars := maxBars;
      states, history := map[], map[];
    }

    /** `ingest_snapshot`; a negative bound makes the deque constructor raise. */
    method IngestSnapshot(s: Snapshot) returns (raised: bool)
      requires Valid()
      modifies this
      ensures Valid()
      ensures raised <==> maxBars < 0
      ensures raised ==> states == old(states) && history == old(history)
      ensures !raised ==>
        var k := KeyOf(s.symbol, s.timeframe);
        var seen := HistoryOf(old(history), k) + Incoming(s);
        history == old(history)[k := seen] && states == old(states)[k := Rolling(seen, maxBars)]
      ensures !raised && s.ohlc.Some? ==>
        var k := KeyOf(s.symbol, s.timeframe);
        history[k] == (if k in old(history) then old(history)[k] else []) + s.ohlc.value
      ensures !raised && s.ohlc.None? ==>
        var k := KeyOf(s.symbol, s.timeframe);
        history[k] == if k in old(history) then old(history)[k] else []
    {
      if maxBars < 0 { return true; }
      raised := false;
      var k := KeyOf(s.symbol, s.timeframe);
      ghost var before := HistoryOf(history, k);
      var window := if k in states then states[k] else [];
      StoredWindow(states, history, maxBars, k);
      var merged := MergeCandles(window, Incoming(s), maxBars);
      RollingStep(before, Incoming(s), maxBars);
      FaithfulUpdate(states, history, maxBars, k, before + Incoming(s));
      states := states[k := PySeq.Newest(merged, maxBars)];
      history := history[k := before + Incoming(s)];
    }

    /** `get_candles`: the newest `bars` candles, or all of them. */
    method GetCandles(symbol: string, timeframe: string, bars: Option<int>) returns (r: seq<Candle>)
      requires Valid()
      ensures r == Reading(history, maxBars, KeyOf(symbol, timeframe), bars)
    {
      var k := KeyOf(symbol, timeframe);
      if k !in states { return []; }
      assert Stored(states, k);
      r := states[k];
      RollingIsWindow(history[k], maxBars);
      if bars.Some? && bars.value > 0 {
        if maxBars > 0 { ReadingIsSmallerWindow(history[k], maxBars, bars.value); }
        r := PySeq.Tail(r, bars.value);
      }
    }

    /** `remove_symbol`: drops every timeframe of one symbol and says how many there were. */
    method RemoveSymbol(symbol: string) returns (removed: nat)
      requires Valid()
      modifies this
      ensures Valid()
      ensures states == Without(old(states), Symbols.Upper(symbol))
      ensures history == Without(old(history), Symbols.Upper(symbol))
      ensures removed == |old(states)| - |states|
    {
      var normalized := Symbols.Upper(symbol);
      WithoutSize(states, normalized);
      FaithfulWithout(states, history, maxBars, normalized);
      removed := |set k | k in states && k.symbol == normalized|;
      states, history := Without(states, normalized), Without(history, normalized);
    }
  }
}
