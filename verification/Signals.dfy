/**
 From candles to a sized signal: app/trading_runtime/strategy.py, risk.py and
 runtime.py over the reals, without the final rounding.
 */
module Signals {
  import opened Prelude

  datatype Direction = Buy | Sell | Hold

  datatype HoldReason = NoEdge | Data | Risk

  datatype Candle = Candle(high: real, low: real, close: real)

  datatype Opportunity = Opportunity(direction: Direction, entry: real, stop: Option<real>, target: Option<real>)

  function Abs(x: real): real {
    if x < 0.0 then -x else x
  }

  function Min(a: real, b: real): real {
    if a <= b then a else b
  }

  function SumClose(candles: seq<Candle>): real {
    if candles == [] then 0.0 else SumClose(DropLast(candles)) + Last(candles).close
  }

  function SumRange(candles: seq<Candle>): real {
    if candles == [] then 0.0 else SumRange(DropLast(candles)) + (Last(candles).high - Last(candles).low)
  }

  function LastOf<T>(s: seq<T>, n: nat): seq<T> {
    if |s| <= n then s else s[|s| - n..]
  }

  function Sma(candles: seq<Candle>, n: nat): real
    requires n > 0
  {
    SumClose(LastOf(candles, n)) / n as real
  }

  function Atr(candles: seq<Candle>): real
    requires candles != []
  {
    SumRange(LastOf(candles, 14)) / |LastOf(candles, 14)| as real
  }

  /** derive_opportunity. */
  function DeriveOpportunity(candles: seq<Candle>): Opportunity {
    if |candles| < 20 then Opportunity(Hold, if candles != [] then Last(candles).close else 0.0, None, None)
    else
      var entry, atr := Last(candles).close, Atr(candles);
      if entry <= 0.0 || atr <= 0.0 then Opportunity(Hold, entry, None, None)
      else
        var distance := Min(entry * 0.05, atr * 1.5);
        if Sma(candles, 5) > Sma(candles, 20) then Opportunity(Buy, entry, Some(entry - distance), Some(entry + distance * 2.0))
        else if Sma(candles, 5) < Sma(candles, 20) then Opportunity(Sell, entry, Some(entry + distance), Some(entry - distance * 2.0))
        else Opportunity(Hold, entry, None, None)
  }

  datatype Policy = Policy(riskPerTradePct: real, maxStopDistancePct: real)

  const DEFAULT_POLICY: Policy := Policy(1.0, 25.0)

  datatype Runtime = Runtime(policy: Policy, maxDataAge: int, tradingCostPct: real)

  const DEFAULT_RUNTIME: Runtime := Runtime(DEFAULT_POLICY, 120, 0.20)

  /** position_size; None where the source raises. */
  function PositionSize(p: Policy, capital: real, entry: real, stop: real): Option<real> {
    if capital <= 0.0 || entry <= 0.0 || stop <= 0.0 then None
    else
      var distancePct := Abs(entry - stop) / entry * 100.0;
      if distancePct <= 0.0 || distancePct > p.maxStopDistancePct then None
      else Some(capital * (p.riskPerTradePct / 100.0) / Abs(entry - stop) * entry)
  }

  datatype Signal =
    | Trade(direction: Direction, entry: real, target: real, stop: real, grossPct: real, netPct: real, position: real)
    | Held(reason: HoldReason)

  /** evaluate, for a snapshot of the given price and age in seconds. */
  function Evaluate(r: Runtime, price: real, age: int, capital: real, stop: Option<real>, target: Option<real>): Signal {
    if age < 0 || age > r.maxDataAge then Held(Data)
    else if stop.None? || target.None? then Held(NoEdge)
    else if price <= 0.0 then Held(Data)
    else
      var direction :=
        if target.value > price && stop.value < price then Buy
        else if target.value < price && stop.value > price then Sell
        else Hold;
      if direction.Hold? then Held(NoEdge)
      else
        var gross := Abs(target.value - price) / price * 100.0;
        var position := PositionSize(r.policy, capital, price, stop.value);
        if position.None? then Held(Risk)
        else
          var net := gross - r.tradingCostPct;
          if net <= 0.0 then Held(NoEdge)
          else Trade(direction, price, target.value, stop.value, gross, net, position.value)
  }

  // ---------------------------------------------------------------- the opportunity

  /** Candles on which the strategy takes a side. */
  predicate TakesSide(candles: seq<Candle>) {
    |candles| >= 20 && Last(candles).close > 0.0 && Atr(candles) > 0.0 && Sma(candles, 5) != Sma(candles, 20)
  }

  /** Distance between entry and stop. */
  function StopDistance(candles: seq<Candle>): real
    requires candles != []
  {
    Min(Last(candles).close * 0.05, Atr(candles) * 1.5)
  }

  /** The strategy takes a side exactly then; the stop lies on the losing side, and the reward is twice the risk. */
  lemma OpportunityShape(candles: seq<Candle>)
    ensures var o := DeriveOpportunity(candles);
            && (TakesSide(candles) <==> !o.direction.Hold?)
            && (o.direction.Hold? <==> o.stop.None?) && (o.stop.None? <==> o.target.None?)
            && (!o.direction.Hold? ==>
                  && o.entry > 0.0
                  && 0.0 < Abs(o.entry - o.stop.value) == StopDistance(candles) <= o.entry * 0.05
                  && Abs(o.target.value - o.entry) == 2.0 * Abs(o.entry - o.stop.value)
                  && (o.direction.Buy? ==> o.stop.value < o.entry < o.target.value)
                  && (o.direction.Sell? ==> o.target.value < o.entry < o.stop.value)
                  && o.stop.value > 0.0 && o.target.value > 0.0)
  {
  }

  // ---------------------------------------------------------------- nonlinear steps

  lemma DivideBounds(x: real, y: real, c: real)
    requires y > 0.0
    ensures x <= c * y <==> x / y <= c
    ensures x < c * y <==> x / y < c
  {
    assert x == x / y * y;
    if x / y <= c {
      assert x / y * y <= c * y;
    } else {
      assert x / y * y > c * y;
    }
    if x / y < c {
      assert x / y * y < c * y;
    } else {
      assert x / y * y >= c * y;
    }
  }

  /** The distance as a share of the entry decides both guards. */
  lemma Shares(entry: real, d: real)
    requires entry > 0.0 && d > 0.0
    ensures d / entry * 100.0 > 0.0
    ensures d <= entry * 0.05 ==> d / entry * 100.0 <= 5.0
    ensures (2.0 * d) / entry * 100.0 <= 0.20 <==> d <= entry * 0.001
  {
    DivideBounds(d, entry, 0.05);
    DivideBounds(d, entry, 0.0);
    DivideBounds(2.0 * d, entry, 0.002);
  }

  /** One percent of the capital over the distance, times the entry. */
  lemma PositionBounds(capital: real, entry: real, d: real)
    requires capital > 0.0 && entry > 0.0 && entry * 0.001 < d <= entry * 0.05
    ensures var position := capital * (1.0 / 100.0) / d * entry;
            && position / entry * d == capital * 0.01
            && 0.2 * capital <= position < 10.0 * capital
  {
    var risk := capital * (1.0 / 100.0);
    var units := risk / d;
    assert units * d == risk;
    assert units > 0.0 by { DivideBounds(risk, d, 0.0); }
    assert units * entry / entry == units;
    Scale(units, d, entry * 0.05);
    ScaleStrict(units, entry * 0.001, d);
    assert units * (entry * 0.05) == units * entry * 0.05;
    assert units * (entry * 0.001) == units * entry * 0.001;
  }

  lemma Scale(u: real, a: real, b: real)
    requires u > 0.0 && a <= b
    ensures u * a <= u * b
  {
  }

  lemma ScaleStrict(u: real, a: real, b: real)
    requires u > 0.0 && a < b
    ensures u * a < u * b
  {
  }

  // ---------------------------------------------------------------- from strategy to size

  /**
   Fresh data, positive capital, default policies, priced at the last close: a
   side is never held back for RISK; it is held back for NO_EDGE exactly when the
   stop is within 0.1% of the entry; otherwise it becomes a trade in the same
   direction that loses exactly 1% of the capital at its stop, with a position
   between a fifth of the capital and ten times it.
   */
  lemma StrategyToSize(candles: seq<Candle>, age: int, capital: real)
    requires TakesSide(candles) && 0 <= age <= 120 && capital > 0.0
    ensures var o := DeriveOpportunity(candles);
            var s := Evaluate(DEFAULT_RUNTIME, o.entry, age, capital, o.stop, o.target);
            && s != Held(Risk) && s != Held(Data)
            && (s == Held(NoEdge) <==> StopDistance(candles) <= o.entry * 0.001)
            && (s.Trade? ==>
                  && s.direction == o.direction && s.entry == o.entry && Some(s.stop) == o.stop && Some(s.target) == o.target
                  && s.grossPct == 2.0 * (StopDistance(candles) / s.entry * 100.0) && s.netPct == s.grossPct - 0.20 > 0.0
                  && s.position / s.entry * Abs(s.entry - s.stop) == capital * 0.01
                  && 0.2 * capital <= s.position < 10.0 * capital)
  {
    hide Atr, Sma;
    OpportunityShape(candles);
    var o, d := DeriveOpportunity(candles), StopDistance(candles);
    Shares(o.entry, d);
    assert (2.0 * d) / o.entry * 100.0 == 2.0 * (d / o.entry * 100.0);
    if d > o.entry * 0.001 {
      PositionBounds(capital, o.entry, d);
    }
  }

  /** Whatever stop and target are passed in, a trade lies between them and its net return is positive. */
  lemma TradesHaveEdge(r: Runtime, price: real, age: int, capital: real, stop: Option<real>, target: Option<real>)
    ensures var s := Evaluate(r, price, age, capital, stop, target);
            s.Trade? ==>
              && capital > 0.0 && s.netPct > 0.0
              && (s.direction.Buy? ==> s.stop < s.entry < s.target)
              && (s.direction.Sell? ==> s.target < s.entry < s.stop)
              && !s.direction.Hold?
              && Abs(s.entry - s.stop) / s.entry * 100.0 <= r.policy.maxStopDistancePct
  {
  }
}
