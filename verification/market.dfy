/**
 * The four instruments, the per-symbol number maps the engine keeps
 * (prices, holdings, staged quantities), and the pure pieces of arithmetic
 * that the handlers and the chat replies use: the price drift, the
 * cheapest and most-held picks, and the random amount suggestions.
 *
 * Money is held in integer kuruş (1 TL = 100 kuruş), so that a price with
 * two decimals and a cost price × quantity are exact. Every Math.random()
 * value is a parameter r with 0 <= r < 1.
 */
module Market {
  import Text

  datatype Symbol = STK1 | STK2 | STK3 | STK4

  /** stockList: the order in which every per-symbol scan visits the instruments. */
  const StockList: seq<Symbol> := [STK1, STK2, STK3, STK4]

  function Name(s: Symbol): string {
    match s
    case STK1 => "STK1"
    case STK2 => "STK2"
    case STK3 => "STK3"
    case STK4 => "STK4"
  }

  /** The position of s in StockList. */
  function IndexOf(s: Symbol): (i: nat)
    ensures i < |StockList| && StockList[i] == s
  {
    match s
    case STK1 => 0
    case STK2 => 1
    case STK3 => 2
    case STK4 => 3
  }

  /** A StockMap value: one number per symbol. */
  predicate IsTotal(m: map<Symbol, int>) {
    forall s: Symbol :: s in m
  }

  /** The map's numbers in StockList order (the order of Object.entries on these maps). */
  function Values(m: map<Symbol, int>): (v: seq<int>)
    requires IsTotal(m)
    ensures |v| == |StockList|
    ensures forall i :: 0 <= i < |v| ==> v[i] == m[StockList[i]]
  {
    [m[STK1], m[STK2], m[STK3], m[STK4]]
  }

  /** The price floor of the drift: 1 TL. */
  const MinPrice := 100

  function Max(a: int, b: int): int { if a >= b then a else b }

  function Min(a: int, b: int): int { if a <= b then a else b }

  function Abs(a: int): int { if a < 0 then -a else a }

  /** Math.floor(r * n). */
  function Scaled(r: real, n: int): int {
    (r * n as real).Floor
  }

  /** For a draw r in [0, 1) and n >= 1, Math.floor(r * n) is an index below n. */
  lemma ScaledBelow(r: real, n: int)
    requires 0.0 <= r < 1.0 && n >= 1
    ensures 0 <= Scaled(r, n) < n
  {
    ProductBelow(r, n as real);
  }

  /** A draw in [0, 1) scales a positive x to somewhere in [0, x). */
  lemma ProductBelow(r: real, x: real)
    requires 0.0 <= r < 1.0 && x > 0.0
    ensures 0.0 <= r * x < x
  {
    assert (1.0 - r) * x > 0.0;
  }

  /**
   * stockList[Math.floor(r * stockList.length)]: the symbol whose quarter of
   * [0, 1) holds the draw, so each symbol is picked with equal chance.
   */
  function Pick(r: real): (s: Symbol)
    requires 0.0 <= r < 1.0
    ensures IndexOf(s) as real <= r * 4.0 < IndexOf(s) as real + 1.0
  {
    ScaledBelow(r, |StockList|);
    var k := Scaled(r, |StockList|);
    assert IndexOf(StockList[k]) == k;
    StockList[k]
  }

  /**
   * The price change of one tick in kuruş: (r * 20 - 10).toFixed(2), which
   * rounds the magnitude to the nearest hundredth, halves away from zero.
   */
  function DeltaCents(r: real): (d: int)
    ensures 0.0 <= r < 1.0 ==> -1000 <= d <= 1000
  {
    var x := r * 20.0 - 10.0;
    if x < 0.0 then -((-x) * 100.0 + 0.5).Floor else (x * 100.0 + 0.5).Floor
  }

  /**
   * One instrument's new price after a tick: the old price plus the change,
   * but never below 1 TL, whatever the change; and from a price at or above
   * the floor it moves by no more than the change.
   */
  function Drift(price: int, delta: int): (p: int)
    ensures p >= MinPrice
    ensures price + delta >= MinPrice ==> p == price + delta
    ensures price + delta < MinPrice ==> p == MinPrice
    ensures price >= MinPrice ==> Abs(p - price) <= Abs(delta)
  {
    Max(MinPrice, price + delta)
  }

  /** The index of the first smallest value: what a stable ascending sort puts first. */
  function FirstMinIndex(v: seq<int>): (i: nat)
    requires |v| > 0
    ensures i < |v|
    ensures forall j :: 0 <= j < |v| ==> v[i] <= v[j]
    ensures forall j :: 0 <= j < i ==> v[j] > v[i]
  {
    if |v| == 1 then 0
    else
      var k := FirstMinIndex(v[..|v| - 1]);
      if v[|v| - 1] < v[k] then |v| - 1 else k
  }

  /** The index of the first largest value: what a stable descending sort puts first. */
  function FirstMaxIndex(v: seq<int>): (i: nat)
    requires |v| > 0
    ensures i < |v|
    ensures forall j :: 0 <= j < |v| ==> v[i] >= v[j]
    ensures forall j :: 0 <= j < i ==> v[j] < v[i]
  {
    if |v| == 1 then 0
    else
      var k := FirstMaxIndex(v[..|v| - 1]);
      if v[|v| - 1] > v[k] then |v| - 1 else k
  }

  /** s holds the smallest value of m, and every symbol before it in StockList holds more. */
  predicate FirstLowest(m: map<Symbol, int>, s: Symbol)
    requires IsTotal(m)
  {
    && (forall t: Symbol :: m[s] <= m[t])
    && (forall t: Symbol :: IndexOf(t) < IndexOf(s) ==> m[t] > m[s])
  }

  /** s holds the largest value of m, and every symbol before it in StockList holds less. */
  predicate FirstHighest(m: map<Symbol, int>, s: Symbol)
    requires IsTotal(m)
  {
    && (forall t: Symbol :: m[s] >= m[t])
    && (forall t: Symbol :: IndexOf(t) < IndexOf(s) ==> m[t] < m[s])
  }

  /**
   * Object.entries(prices).sort((a, b) => a[1] - b[1])[0]: since the sort is
   * stable, the first symbol in StockList order whose price is minimal.
   */
  function Cheapest(prices: map<Symbol, int>): (s: Symbol)
    requires IsTotal(prices)
    ensures FirstLowest(prices, s)
  {
    var v := Values(prices);
    var i := FirstMinIndex(v);
    assert forall t: Symbol :: v[IndexOf(t)] == prices[t];
    StockList[i]
  }

  /**
   * Object.entries(stocks).sort((a, b) => b[1] - a[1])[0]: the first symbol
   * in StockList order whose holding is maximal.
   */
  function MostOwned(stocks: map<Symbol, int>): (s: Symbol)
    requires IsTotal(stocks)
    ensures FirstHighest(stocks, s)
  {
    var v := Values(stocks);
    var i := FirstMaxIndex(v);
    assert forall t: Symbol :: v[IndexOf(t)] == stocks[t];
    StockList[i]
  }

  /**
   * The buy suggestion for one symbol: affordable = floor(balance / price),
   * then min(max(1, floor(r * affordable)), 10). It lies in [1, 10] for any
   * draw at all.
   */
  function BuyAmount(balance: int, price: int, r: real): (k: int)
    requires price > 0
    ensures 1 <= k <= 10
  {
    var affordable := balance / price;
    Min(Max(1, Scaled(r, affordable)), 10)
  }

  /**
   * With a genuine draw, the buy suggestion never exceeds what the balance
   * affords when it affords at least one; when it affords none the
   * suggestion is still 1.
   */
  lemma BuyAmountAffordable(balance: int, price: int, r: real)
    requires price > 0 && 0.0 <= r < 1.0
    ensures balance / price >= 1 ==> BuyAmount(balance, price, r) <= balance / price
    ensures balance / price <= 0 ==> BuyAmount(balance, price, r) == 1
  {
    var a := balance / price;
    if a >= 1 {
      ScaledBelow(r, a);
    } else {
      ScaledAtMostZero(r, a);
    }
  }

  /** For a draw in [0, 1), Math.floor(r * n) is at most 0 when n is. */
  lemma ScaledAtMostZero(r: real, n: int)
    requires 0.0 <= r < 1.0 && n <= 0
    ensures Scaled(r, n) <= 0
  {
    var x := n as real;
    assert r * x <= 0.0 by {
      assert r * (-x) >= 0.0;
    }
  }

  /**
   * The sell suggestion for one symbol: min(max(1, floor(r * (owned + 1))), owned).
   * For any draw it lies in [0, owned], and in [1, owned] once owned >= 1.
   */
  function SellAmount(owned: int, r: real): (k: int)
    ensures owned >= 0 ==> 0 <= k <= owned
    ensures owned >= 1 ==> 1 <= k
  {
    Min(Max(1, Scaled(r, owned + 1)), owned)
  }
}
