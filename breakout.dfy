/** The multi-timeframe breakout bot (sinyalbot.py): the flags of the last
    bar of each timeframe, the long/short rule across 1m, 5m, 15m and 1h,
    the ATR stop-loss with a risk-based size, the percent take-profit
    ladders and the per-symbol cooldown map. Indicator values are inputs;
    wall-clock time is the `now` parameter, in seconds. */
module Breakout {
  import opened Common

  const RiskPerTrade: real := 0.03
  const ModalTotal: real := 20.0
  const Leverage: real := 20.0
  const Tp1Pct: real := 0.02
  const Tp2Pct: real := 0.04
  const Tp3Pct: real := 0.06

  const CooldownPeriod: real := 300.0
  const AdxThreshold: real := 25.0
  const VolumeSpikeFactor: real := 1.5
  const VolumeWindow: nat := 20

  /** Dollars risked per trade. */
  const RiskDollar: real := ModalTotal * RiskPerTrade

  // ---------------------------------------------------------------------
  // Flags of the last bar

  /** The last bar of one timeframe with its indicators; `volumes` is the
      volume column, the last bar's volume last. */
  datatype Frame = Frame(
    close: real, maFast: real, maSlow: real,
    bbUpper: real, bbLower: real, adx: real, atr: real,
    volumes: seq<real>)

  datatype Flags = Flags(trendUp: bool, breakoutUp: bool, breakoutDown: bool, volumeSpike: bool, strongAdx: bool)

  function Sum(s: seq<real>): real {
    if s == [] then 0.0 else Sum(s[..|s| - 1]) + s[|s| - 1]
  }

  /** The rolling mean of the last VolumeWindow volumes, at the last bar. */
  function WindowMean(volumes: seq<real>): (r: real)
    requires |volumes| >= VolumeWindow
    ensures r * (VolumeWindow as real) == Sum(volumes[|volumes| - VolumeWindow..])
    ensures (forall i :: |volumes| - VolumeWindow <= i < |volumes| ==> volumes[i] >= 0.0) ==> r >= 0.0
  {
    WindowSumSign(volumes);
    Sum(volumes[|volumes| - VolumeWindow..]) / (VolumeWindow as real)
  }

  lemma WindowSumSign(volumes: seq<real>)
    requires |volumes| >= VolumeWindow
    ensures (forall i :: |volumes| - VolumeWindow <= i < |volumes| ==> volumes[i] >= 0.0) ==>
              Sum(volumes[|volumes| - VolumeWindow..]) >= 0.0
  {
    var w := volumes[|volumes| - VolumeWindow..];
    if forall i :: |volumes| - VolumeWindow <= i < |volumes| ==> volumes[i] >= 0.0 {
      assert forall j :: 0 <= j < |w| ==> w[j] == volumes[|volumes| - VolumeWindow + j];
      SumNonNegative(w);
    }
  }

  /** The last volume exceeds 1.5 times the rolling mean. With fewer than
      VolumeWindow bars the rolling mean is undefined and the comparison is
      false. */
  function VolumeSpike(volumes: seq<real>): (r: bool)
    ensures r ==> |volumes| >= VolumeWindow
    ensures |volumes| >= VolumeWindow ==> (r <==> volumes[|volumes| - 1] > WindowMean(volumes) * VolumeSpikeFactor)
  {
    |volumes| >= VolumeWindow && volumes[|volumes| - 1] > WindowMean(volumes) * VolumeSpikeFactor
  }

  /** The flags `analyze` attaches to the last bar, all strict comparisons. */
  function Analyze(f: Frame): (r: Flags)
    ensures r.trendUp <==> f.maFast > f.maSlow
    ensures r.breakoutUp <==> f.close > f.bbUpper
    ensures r.breakoutDown <==> f.close < f.bbLower
    ensures r.strongAdx <==> f.adx > 25.0
    ensures r.volumeSpike == VolumeSpike(f.volumes)
    ensures f.bbLower <= f.bbUpper ==> !(r.breakoutUp && r.breakoutDown)
  {
    Flags(
      trendUp := f.maFast > f.maSlow,
      breakoutUp := f.close > f.bbUpper,
      breakoutDown := f.close < f.bbLower,
      volumeSpike := VolumeSpike(f.volumes),
      strongAdx := f.adx > AdxThreshold)
  }

  lemma {:induction false} SumOfConstant(s: seq<real>, v: real)
    requires forall i :: 0 <= i < |s| ==> s[i] == v
    ensures Sum(s) == (|s| as real) * v
  {
    if s != [] {
      SumOfConstant(s[..|s| - 1], v);
    }
  }

  lemma {:induction false} SumNonNegative(s: seq<real>)
    requires forall i :: 0 <= i < |s| ==> s[i] >= 0.0
    ensures Sum(s) >= 0.0
  {
    if s != [] {
      SumNonNegative(s[..|s| - 1]);
    }
  }

  /** Flat volume never spikes. */
  lemma {:induction false} FlatVolumeNoSpike(volumes: seq<real>, v: real)
    requires v >= 0.0
    requires forall i :: 0 <= i < |volumes| ==> volumes[i] == v
    ensures !VolumeSpike(volumes)
  {
    if |volumes| >= VolumeWindow {
      var w := volumes[|volumes| - VolumeWindow..];
      SumOfConstant(w, v);
      assert WindowMean(volumes) == v;
    }
  }

  /** With non-negative volumes a spike puts the last volume above the
      rolling mean itself, and the window's volumes are not all zero. */
  lemma {:induction false} SpikeAboveMean(volumes: seq<real>)
    requires forall i :: 0 <= i < |volumes| ==> volumes[i] >= 0.0
    requires VolumeSpike(volumes)
    ensures volumes[|volumes| - 1] > WindowMean(volumes) >= 0.0
    ensures volumes[|volumes| - 1] > 0.0
  {
    var m := WindowMean(volumes);
    assert m * VolumeSpikeFactor >= m;
  }

  // ---------------------------------------------------------------------
  // The long/short rule

  /** All four timeframes trend up and the 1m bar breaks out above its upper
      band with a volume spike and a strong ADX. */
  function CondUp(m1: Flags, m5: Flags, m15: Flags, h1: Flags): (r: bool)
    ensures r ==> m1.trendUp && m5.trendUp && m15.trendUp && h1.trendUp
    ensures r ==> m1.breakoutUp && m1.volumeSpike && m1.strongAdx
  {
    m1.trendUp && m5.trendUp && m15.trendUp && h1.trendUp && m1.breakoutUp && m1.volumeSpike && m1.strongAdx
  }

  /** The mirror: no timeframe trends up and the 1m bar breaks out below its
      lower band with a volume spike and a strong ADX. */
  function CondDown(m1: Flags, m5: Flags, m15: Flags, h1: Flags): (r: bool)
    ensures r ==> !m1.trendUp && !m5.trendUp && !m15.trendUp && !h1.trendUp
    ensures r ==> m1.breakoutDown && m1.volumeSpike && m1.strongAdx
  {
    !m1.trendUp && !m5.trendUp && !m15.trendUp && !h1.trendUp && m1.breakoutDown && m1.volumeSpike && m1.strongAdx
  }

  /** The two rules exclude each other through the 1m trend flag, and each
      holds exactly when all of its seven conditions do. */
  lemma CondRules(m1: Flags, m5: Flags, m15: Flags, h1: Flags)
    ensures !(CondUp(m1, m5, m15, h1) && CondDown(m1, m5, m15, h1))
    ensures CondUp(m1, m5, m15, h1) <==>
              m1.trendUp && m5.trendUp && m15.trendUp && h1.trendUp && m1.breakoutUp && m1.volumeSpike && m1.strongAdx
    ensures CondDown(m1, m5, m15, h1) <==>
              !m1.trendUp && !m5.trendUp && !m15.trendUp && !h1.trendUp && m1.breakoutDown && m1.volumeSpike && m1.strongAdx
  {
  }

  /** A timeframe that disagrees with the 1m trend blocks both rules. */
  lemma DisagreementBlocks(m1: Flags, m5: Flags, m15: Flags, h1: Flags)
    requires m5.trendUp != m1.trendUp || m15.trendUp != m1.trendUp || h1.trendUp != m1.trendUp
    ensures !CondUp(m1, m5, m15, h1) && !CondDown(m1, m5, m15, h1)
  {
  }

  // ---------------------------------------------------------------------
  // Stop-loss, size and take-profits

  /** The ATR stop-loss: below the price for a long, above it otherwise. */
  function StopLoss(price: real, atr: real, condUp: bool): (sl: real)
    ensures Abs(price - sl) == Abs(atr)
    ensures atr > 0.0 && condUp ==> sl < price
    ensures atr > 0.0 && !condUp ==> sl > price
  {
    if condUp then price - atr else price + atr
  }

  /** The integer nearest to `y`, ties to the even one. */
  function RoundHalfEven(y: real): (m: int)
    ensures -0.5 <= (m as real) - y <= 0.5
    ensures y - y.Floor as real == 0.5 ==> m % 2 == 0
    ensures y >= 0.0 ==> m >= 0
  {
    var n := y.Floor;
    var frac := y - n as real;
    if frac < 0.5 then n
    else if frac > 0.5 then n + 1
    else if n % 2 == 0 then n else n + 1
  }

  /** Python's round(x, 2) on the exact value: to the nearest hundredth,
      ties to the even hundredth. */
  function Round2(x: real): (r: real)
    ensures Abs(r - x) <= 0.005
    ensures (r * 100.0).Floor as real == r * 100.0
    ensures x >= 0.0 ==> r >= 0.0
    ensures x * 100.0 - (x * 100.0).Floor as real == 0.5 ==> (r * 100.0).Floor % 2 == 0
  {
    var m := RoundHalfEven(x * 100.0);
    var r := (m as real) / 100.0;
    assert r * 100.0 == m as real;
    assert (r * 100.0).Floor == m;
    r
  }

  /** The leverage-scaled position that loses RiskDollar at the stop. */
  function RiskSize(distance: real): (r: real)
    requires distance > 0.0
    ensures r > 0.0
    ensures r * distance == RiskDollar * Leverage
  {
    (RiskDollar / distance) * Leverage
  }

  /** The size quoted with a signal: 0 when the stop sits on the price,
      otherwise the risk size rounded to two decimals. */
  function PositionSize(price: real, sl: real): (size: real)
    ensures price == sl ==> size == 0.0
    ensures size >= 0.0
    ensures price != sl ==> Abs(size - RiskSize(Abs(price - sl))) <= 0.005
  {
    var diff := Abs(price - sl);
    if diff == 0.0 then 0.0 else Round2(RiskSize(diff))
  }

  datatype Ladder = Ladder(tp1: real, tp2: real, tp3: real)

  /** Take-profits 2 %, 4 % and 6 % above the price. */
  function LongLadder(price: real): (r: Ladder)
    ensures price > 0.0 ==> price < r.tp1 < r.tp2 < r.tp3
    ensures r.tp1 - price == Tp1Pct * price && r.tp2 - price == Tp2Pct * price && r.tp3 - price == Tp3Pct * price
  {
    Ladder(price * (1.0 + Tp1Pct), price * (1.0 + Tp2Pct), price * (1.0 + Tp3Pct))
  }

  /** Take-profits 2 %, 4 % and 6 % below the price. */
  function ShortLadder(price: real): (r: Ladder)
    ensures price > 0.0 ==> r.tp3 < r.tp2 < r.tp1 < price
    ensures price - r.tp1 == Tp1Pct * price && price - r.tp2 == Tp2Pct * price && price - r.tp3 == Tp3Pct * price
  {
    Ladder(price * (1.0 - Tp1Pct), price * (1.0 - Tp2Pct), price * (1.0 - Tp3Pct))
  }

  /** The short ladder is the long one reflected through the price. */
  lemma LaddersMirror(price: real)
    ensures LongLadder(price).tp1 + ShortLadder(price).tp1 == 2.0 * price
    ensures LongLadder(price).tp2 + ShortLadder(price).tp2 == 2.0 * price
    ensures LongLadder(price).tp3 + ShortLadder(price).tp3 == 2.0 * price
  {
  }

  // ---------------------------------------------------------------------
  // One tick of check_signal

  datatype Frames = Frames(m1: Frame, m5: Frame, m15: Frame, h1: Frame)

  /** The message sent, if any. */
  datatype Call = NoCall | LongCall(ladder: Ladder) | ShortCall(ladder: Ladder)

  /** What a tick past the cooldown gate computes: the two rules, the 1m
      close as price, the stop-loss and size, and the call. */
  datatype Evaluation = Evaluation(condUp: bool, condDown: bool, price: real, sl: real, size: real, call: Call)

  datatype SignalOutcome = CoolingDown | Evaluated(evaluation: Evaluation)

  /** The evaluation of the four timeframes. */
  function Evaluate(fs: Frames): (e: Evaluation)
    ensures e.condUp == CondUp(Analyze(fs.m1), Analyze(fs.m5), Analyze(fs.m15), Analyze(fs.h1))
    ensures e.condDown == CondDown(Analyze(fs.m1), Analyze(fs.m5), Analyze(fs.m15), Analyze(fs.h1))
    ensures e.price == fs.m1.close
    ensures Abs(e.price - e.sl) == Abs(fs.m1.atr)
    ensures e.size >= 0.0 && (fs.m1.atr == 0.0 ==> e.size == 0.0)
    ensures e.size == PositionSize(e.price, e.sl)
    ensures fs.m1.atr != 0.0 ==> Abs(e.size - RiskSize(Abs(fs.m1.atr))) <= 0.005
    ensures e.call.LongCall? <==> e.condUp
    ensures e.call.ShortCall? <==> e.condDown
    ensures e.call.LongCall? ==> e.call.ladder == LongLadder(e.price) && (fs.m1.atr > 0.0 ==> e.sl < e.price)
    ensures e.call.ShortCall? ==> e.call.ladder == ShortLadder(e.price) && (fs.m1.atr > 0.0 ==> e.sl > e.price)
  {
    var m1 := Analyze(fs.m1);
    var condUp := CondUp(m1, Analyze(fs.m5), Analyze(fs.m15), Analyze(fs.h1));
    var condDown := CondDown(m1, Analyze(fs.m5), Analyze(fs.m15), Analyze(fs.h1));
    var price := fs.m1.close;
    var sl := StopLoss(price, fs.m1.atr, condUp);
    var size := PositionSize(price, sl);
    var call := if condUp then LongCall(LongLadder(price))
                else if condDown then ShortCall(ShortLadder(price))
                else NoCall;
    Evaluation(condUp, condDown, price, sl, size, call)
  }

  /** The symbol was signalled less than CooldownPeriod seconds ago; an
      unseen symbol is never cooling down. */
  function InCooldown(cooldowns: map<string, real>, symbol: string, now: real): (r: bool)
    ensures symbol !in cooldowns ==> !r
    ensures symbol in cooldowns ==> (r <==> now < cooldowns[symbol] + CooldownPeriod)
  {
    symbol in cooldowns && now - cooldowns[symbol] < CooldownPeriod
  }

  /** After a signal recorded at `t0`, the symbol is cooling down exactly
      before t0 + CooldownPeriod: still at t0 + 299.999, no more at t0 + 300. */
  lemma {:induction false} CooldownAfterRecord(cooldowns: map<string, real>, symbol: string, t0: real, t: real)
    ensures InCooldown(cooldowns[symbol := t0], symbol, t) <==> t < t0 + CooldownPeriod
    ensures !InCooldown(cooldowns[symbol := t0], symbol, t0 + CooldownPeriod)
  {
    assert symbol in cooldowns[symbol := t0] && cooldowns[symbol := t0][symbol] == t0;
  }

  /** The per-symbol cooldown map, updated in place. */
  class CooldownBook {
    var cooldowns: map<string, real>

    constructor ()
      ensures cooldowns == map[]
    {
      cooldowns := map[];
    }

    /** One tick for `symbol`: a symbol still cooling down is skipped with no
        change; otherwise the frames are evaluated and the symbol's entry is
        set to `now` exactly when one of the two rules fires. */
    method CheckSignal(symbol: string, fs: Frames, now: real) returns (o: SignalOutcome)
      modifies this
      ensures old(InCooldown(cooldowns, symbol, now)) ==> o == CoolingDown && unchanged(this)
      ensures !old(InCooldown(cooldowns, symbol, now)) ==> o == Evaluated(Evaluate(fs))
      ensures o.Evaluated? && (o.evaluation.condUp || o.evaluation.condDown) ==>
                cooldowns == old(cooldowns)[symbol := now]
      ensures o.Evaluated? && !(o.evaluation.condUp || o.evaluation.condDown) ==> unchanged(this)
    {
      if symbol in cooldowns && now - cooldowns[symbol] < CooldownPeriod {
        return CoolingDown;
      }

      var m1 := Analyze(fs.m1);
      var m5 := Analyze(fs.m5);
      var m15 := Analyze(fs.m15);
      var h1 := Analyze(fs.h1);
      var condUp := CondUp(m1, m5, m15, h1);
      var condDown := CondDown(m1, m5, m15, h1);

      var price := fs.m1.close;
      var atr := fs.m1.atr;
      var sl := StopLoss(price, atr, condUp);
      var size := PositionSize(price, sl);

      if condUp || condDown {
        cooldowns := cooldowns[symbol := now];
      }

      var call := NoCall;
      if condUp {
        call := LongCall(LongLadder(price));
      } else if condDown {
        call := ShortCall(ShortLadder(price));
      }
      return Evaluated(Evaluation(condUp, condDown, price, sl, size, call));
    }
  }
}
