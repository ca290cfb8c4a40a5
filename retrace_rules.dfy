/** The pure rules of the retrace bot (salamprofit.py): the 1h trend flags,
    the 15m entry rule, the entry band, the slip tolerance and the percent
    stop-loss / take-profit levels. Prices are reals; indicator values
    (EMA, RSI, StochRSI) are inputs. */
module RetraceRules {
  import opened Common

  // Stop-loss and take-profit offsets, as fractions of the reference price.
  const SlPct: real := 0.006
  const Tp1Pct: real := 0.012
  const Tp2Pct: real := 0.020

  // Entry band.
  const FibLookback: nat := 20
  const FibLevel50: real := 0.5
  const FibLevel618: real := 0.618
  const LimitBufferPct: real := 0.0008
  const SlipTolPct: real := 0.0025

  // Entry rule on the 15m bar.
  const TouchTol: real := 0.0015
  const RsiMinLong: real := 45.0
  const RsiMaxLong: real := 60.0
  const RsiMinShort: real := 40.0
  const RsiMaxShort: real := 55.0
  const StochKLowLong: real := 0.25
  const StochKHighLong: real := 0.65
  const StochKLowShort: real := 0.35
  const StochKHighShort: real := 0.75

  /** The bot's mode switches. */
  datatype Config = Config(useFib: bool, sideLongOnly: bool, confirmOnClose: bool)

  /** The switches as the bot ships them. */
  const DefaultConfig: Config := Config(useFib := true, sideLongOnly := false, confirmOnClose := true)

  datatype Side = Long | Short {
    /** The side string the bot passes around. */
    function Name(): string {
      if Long? then "LONG" else "SHORT"
    }
  }

  // ---------------------------------------------------------------------
  // Trend gate on the 1h EMAs

  /** ema_uptrend: the fast 1h EMA is strictly above the slow one. */
  function Uptrend(emaFast: real, emaSlow: real): (up: bool)
    ensures up ==> emaFast != emaSlow
    ensures up <==> emaSlow < emaFast
  {
    emaFast > emaSlow
  }

  /** ema_downtrend: the fast 1h EMA is strictly below the slow one. */
  function Downtrend(emaFast: real, emaSlow: real): (down: bool)
    ensures down ==> emaFast != emaSlow
    ensures down <==> emaSlow > emaFast
  {
    emaFast < emaSlow
  }

  /** The two strict comparisons exclude each other, and one of them holds
      exactly when the EMAs differ. */
  lemma TrendFlags(emaFast: real, emaSlow: real)
    ensures !(Uptrend(emaFast, emaSlow) && Downtrend(emaFast, emaSlow))
    ensures Uptrend(emaFast, emaSlow) || Downtrend(emaFast, emaSlow) <==> emaFast != emaSlow
  {
  }

  // ---------------------------------------------------------------------
  // Stop-loss and take-profit

  datatype Levels = Levels(sl: real, tp1: real, tp2: real)

  /** Percent stop-loss and two take-profits around `price`; every side
      string other than "LONG" is treated as a short. */
  function BuildSlTp(side: string, price: real): (r: Levels)
    ensures side == "LONG" && price > 0.0 ==> r.sl < price < r.tp1 < r.tp2
    ensures side != "LONG" && price > 0.0 ==> r.tp2 < r.tp1 < price < r.sl
    ensures side == "LONG" ==>
              && price - r.sl == SlPct * price
              && r.tp1 - price == Tp1Pct * price
              && r.tp2 - price == Tp2Pct * price
    ensures side != "LONG" ==>
              && r.sl - price == SlPct * price
              && price - r.tp1 == Tp1Pct * price
              && price - r.tp2 == Tp2Pct * price
  {
    if side == "LONG" then
      Levels(price * (1.0 - SlPct), price * (1.0 + Tp1Pct), price * (1.0 + Tp2Pct))
    else
      Levels(price * (1.0 + SlPct), price * (1.0 - Tp1Pct), price * (1.0 - Tp2Pct))
  }

  /** The short levels are the long levels reflected through the price. */
  lemma LevelsMirror(price: real)
    ensures BuildSlTp("LONG", price).sl + BuildSlTp("SHORT", price).sl == 2.0 * price
    ensures BuildSlTp("LONG", price).tp1 + BuildSlTp("SHORT", price).tp1 == 2.0 * price
    ensures BuildSlTp("LONG", price).tp2 + BuildSlTp("SHORT", price).tp2 == 2.0 * price
  {
  }

  // ---------------------------------------------------------------------
  // Entry band

  function MinNat(a: nat, b: nat): nat {
    if a <= b then a else b
  }

  /** The bars that `iloc[-FibLookback-1:-1]` selects: at most FibLookback
      bars, those just before the last one. */
  function LookbackWindow(s: seq<real>): (w: seq<real>)
    requires |s| >= 1
    ensures |w| == MinNat(|s| - 1, FibLookback)
    ensures forall i :: 0 <= i < |w| ==> w[i] == s[|s| - 1 - |w| + i]
  {
    s[|s| - 1 - MinNat(|s| - 1, FibLookback) .. |s| - 1]
  }

  /** Largest element (swing high). */
  function SeqMax(s: seq<real>): (r: real)
    requires |s| > 0
    ensures r in s
    ensures forall i :: 0 <= i < |s| ==> s[i] <= r
  {
    if |s| == 1 then s[0]
    else
      var m := SeqMax(s[1..]);
      if s[0] >= m then s[0] else m
  }

  /** Smallest element (swing low). */
  function SeqMin(s: seq<real>): (r: real)
    requires |s| > 0
    ensures r in s
    ensures forall i :: 0 <= i < |s| ==> r <= s[i]
  {
    if |s| == 1 then s[0]
    else
      var m := SeqMin(s[1..]);
      if s[0] <= m then s[0] else m
  }

  /** The median of three values: one of them, with two of the three on
      each side of it. */
  function Median3(a: real, b: real, c: real): (r: real)
    ensures r == a || r == b || r == c
    ensures (a <= r && b <= r) || (a <= r && c <= r) || (b <= r && c <= r)
    ensures (a >= r && b >= r) || (a >= r && c >= r) || (b >= r && c >= r)
  {
    var lo := if a <= b then a else b;
    var hi := if a <= b then b else a;
    if c <= lo then lo else if c >= hi then hi else c
  }

  /** Raising any argument never lowers the median. */
  lemma Median3Monotone(a: real, b: real, c: real, a': real, b': real, c': real)
    requires a <= a' && b <= b' && c <= c'
    ensures Median3(a, b, c) <= Median3(a', b', c')
  {
  }

  /** The 0.5 and 0.618 retracement levels of the swing from `ll` to `hh`. */
  function FibLevels(hh: real, ll: real): (r: (real, real))
    ensures hh >= ll ==> ll <= r.0 <= r.1 <= hh
    ensures r.0 - ll == (hh - ll) * FibLevel50 && r.1 - ll == (hh - ll) * FibLevel618
  {
    (ll + (hh - ll) * FibLevel50, ll + (hh - ll) * FibLevel618)
  }

  datatype Band = Band(low: real, high: real)

  /** The medians and buffer of the Fibonacci band, before the swap guard.
      Each median is pinned between the two Fibonacci levels, so EMA20 only
      moves the band while it lies between them. */
  function RawFibBand(ema20: real, fib50: real, fib618: real): (r: Band)
    ensures fib50 <= fib618 ==>
              && fib50 * (1.0 - LimitBufferPct) <= r.low <= fib618 * (1.0 - LimitBufferPct)
              && fib50 * (1.0 + LimitBufferPct) <= r.high <= fib618 * (1.0 + LimitBufferPct)
    ensures fib618 <= fib50 ==>
              && fib618 * (1.0 - LimitBufferPct) <= r.low <= fib50 * (1.0 - LimitBufferPct)
              && fib618 * (1.0 + LimitBufferPct) <= r.high <= fib50 * (1.0 + LimitBufferPct)
  {
    Band(Median3(ema20 * 0.999, fib50, fib618) * (1.0 - LimitBufferPct),
         Median3(ema20 * 1.001, fib50, fib618) * (1.0 + LimitBufferPct))
  }

  /** Entry band from EMA20 and the Fibonacci levels of the swing over the
      lookback window. `highs` and `lows` are the 15m high and low columns;
      with the band off it is EMA20 plus or minus the buffer. */
  function ComputeFibBand(useFib: bool, highs: seq<real>, lows: seq<real>, ema20: real): (r: Band)
    requires |highs| == |lows|
    requires useFib ==> |highs| >= 2
    ensures useFib ==> r.low <= r.high
    ensures !useFib ==> r == Band(ema20 * (1.0 - LimitBufferPct), ema20 * (1.0 + LimitBufferPct))
    ensures ema20 >= 0.0 ==> r.low <= r.high
  {
    if !useFib then
      Band(ema20 * (1.0 - LimitBufferPct), ema20 * (1.0 + LimitBufferPct))
    else
      var hh := SeqMax(LookbackWindow(highs));
      var ll := SeqMin(LookbackWindow(lows));
      var fibs := FibLevels(hh, ll);
      var raw := RawFibBand(ema20, fibs.0, fibs.1);
      if raw.low > raw.high then Band(raw.high, raw.low) else raw
  }

  /** With non-negative prices the swap guard never fires: the band is the
      buffered medians as computed. */
  lemma {:induction false} FibBandNeedsNoSwap(ema20: real, fib50: real, fib618: real)
    requires ema20 >= 0.0 && fib50 >= 0.0 && fib618 >= 0.0
    ensures RawFibBand(ema20, fib50, fib618).low <= RawFibBand(ema20, fib50, fib618).high
  {
    var m1 := Median3(ema20 * 0.999, fib50, fib618);
    var m2 := Median3(ema20 * 1.001, fib50, fib618);
    Median3Monotone(ema20 * 0.999, fib50, fib618, ema20 * 1.001, fib50, fib618);
    assert 0.0 <= m1 <= m2;
    assert m1 * (1.0 - LimitBufferPct) <= m1;
    assert m2 <= m2 * (1.0 + LimitBufferPct);
  }

  /** With non-negative bars whose lows do not exceed their highs, the band
      lies within the buffered swing low and swing high whatever EMA20 is:
      two of the three values each median is taken of are Fibonacci levels
      inside the swing. */
  lemma {:induction false} FibBandWithinSwing(highs: seq<real>, lows: seq<real>, ema20: real)
    requires |highs| == |lows| >= 2
    requires forall i :: 0 <= i < |lows| ==> 0.0 <= lows[i] <= highs[i]
    ensures SeqMin(LookbackWindow(lows)) * (1.0 - LimitBufferPct) <= ComputeFibBand(true, highs, lows, ema20).low
    ensures ComputeFibBand(true, highs, lows, ema20).high <= SeqMax(LookbackWindow(highs)) * (1.0 + LimitBufferPct)
  {
    var wl, wh := LookbackWindow(lows), LookbackWindow(highs);
    var hh, ll := SeqMax(wh), SeqMin(wl);
    assert wl[0] == lows[|lows| - 1 - |wl|] && wh[0] == highs[|highs| - 1 - |wh|];
    assert 0.0 <= ll <= wl[0] <= wh[0] <= hh;
    var fibs := FibLevels(hh, ll);
    var m1 := Median3(ema20 * 0.999, fibs.0, fibs.1);
    var m2 := Median3(ema20 * 1.001, fibs.0, fibs.1);
    assert ll <= m1 <= hh && ll <= m2 <= hh;
    assert ll * (1.0 - LimitBufferPct) <= m1 * (1.0 - LimitBufferPct) <= hh * (1.0 - LimitBufferPct);
    assert ll * (1.0 + LimitBufferPct) <= m2 * (1.0 + LimitBufferPct) <= hh * (1.0 + LimitBufferPct);
  }

  // ---------------------------------------------------------------------
  // Entry rule on the 15m bar

  /** The bar touches EMA20: its range straddles the EMA, or the close is
      within 0.15 % of it. `None` is the ZeroDivisionError Python raises
      when EMA20 is 0 and the range does not straddle it. */
  function Touched(low: real, high: real, close: real, ema: real): (r: Option<bool>)
    ensures r == None <==> ema == 0.0 && !(low <= ema <= high)
    ensures low <= ema <= high ==> r == Some(true)
    ensures ema > 0.0 ==>
              (r == Some(true) <==> (low <= ema <= high) || (ema * (1.0 - TouchTol) < close < ema * (1.0 + TouchTol)))
  {
    if low <= ema <= high then Some(true)
    else if ema == 0.0 then None
    else
      var touched := Abs(close - ema) / ema < TouchTol;
      assert ema > 0.0 ==> (touched <==> -(TouchTol * ema) < close - ema < TouchTol * ema) by {
        if ema > 0.0 { RelativeDistanceBelow(close - ema, ema, TouchTol); }
      }
      Some(touched)
  }

  /** For a positive base, |d| / base < tol says d lies strictly within
      tol * base of 0. */
  lemma RelativeDistanceBelow(d: real, base: real, tol: real)
    requires base > 0.0
    ensures Abs(d) / base < tol <==> -(tol * base) < d < tol * base
  {
    var q := Abs(d) / base;
    assert Abs(d) == q * base;
    if q < tol {
      assert (tol - q) * base > 0.0;
    } else {
      assert (q - tol) * base >= 0.0;
    }
  }

  /** RSI within the inclusive band of the side. */
  predicate RsiOk(side: Side, rsi: real) {
    if side == Long then RsiMinLong <= rsi <= RsiMaxLong else RsiMinShort <= rsi <= RsiMaxShort
  }

  /** StochRSI %K (scaled to 0..1) within the inclusive band of the side. */
  predicate StochOk(side: Side, k: real) {
    if side == Long then StochKLowLong <= k <= StochKHighLong else StochKLowShort <= k <= StochKHighShort
  }

  /** Close strictly on the side's side of EMA50. */
  predicate HoldsEma50(side: Side, close: real, ema50: real) {
    if side == Long then close > ema50 else close < ema50
  }

  /** The entry rule of one side: touch EMA20, close on the right side of
      EMA50, RSI and StochK in band; `None` when the touch test raises. */
  function EntryRule(side: Side, low: real, high: real, close: real, ema20: real, ema50: real, rsi: real, k: real): (r: Option<bool>)
    ensures r == None <==> Touched(low, high, close, ema20) == None
    ensures r == Some(true) <==>
              && Touched(low, high, close, ema20) == Some(true)
              && HoldsEma50(side, close, ema50)
              && RsiOk(side, rsi)
              && StochOk(side, k)
    ensures r == Some(true) && side == Long ==> close > ema50 && 45.0 <= rsi <= 60.0 && 0.25 <= k <= 0.65
    ensures r == Some(true) && side == Short ==> close < ema50 && 40.0 <= rsi <= 55.0 && 0.35 <= k <= 0.75
  {
    match Touched(low, high, close, ema20)
    case None => None
    case Some(touched) => Some(touched && HoldsEma50(side, close, ema50) && RsiOk(side, rsi) && StochOk(side, k))
  }

  /** The price the bot quotes: the close, or the open in early-ping mode. */
  function PriceRef(cfg: Config, open: real, close: real): (p: real)
    ensures p == close || p == open
    ensures cfg.confirmOnClose ==> p == close
    ensures !cfg.confirmOnClose ==> p == open
  {
    if cfg.confirmOnClose then close else open
  }

  /** The price is inside the band, or within the slip tolerance beyond its
      far edge (above the high for a long, below the low for a short). */
  function Accepts(side: Side, band: Band, price: real): (r: bool)
    ensures band.low <= price <= band.high ==> r
    ensures side == Long && band.high >= 0.0 ==> (r <==> price <= band.high * (1.0 + SlipTolPct))
    ensures side == Short && band.low >= 0.0 ==> (r <==> price >= band.low * (1.0 - SlipTolPct))
  {
    var inBand := band.low <= price <= band.high;
    var slipOk := if side == Long then price <= band.high * (1.0 + SlipTolPct)
                  else price >= band.low * (1.0 - SlipTolPct);
    inBand || slipOk
  }
}
