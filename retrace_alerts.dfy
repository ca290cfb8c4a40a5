/** The anti-spam and retest memory of the retrace bot (salamprofit.py) and
    its per-symbol tick. Three symbol-keyed maps remember when a symbol was
    last signalled, the band it was given (with the band's expiry) and the
    side. Wall-clock time is the `now` parameter, in seconds. */
module RetraceAlerts {
  import opened Common
  import opened RetraceRules

  /** REALERT_COOLDOWN_MIN minutes, in seconds. */
  const RealertCooldown: real := 1200.0
  /** ENTRY_WINDOW_MIN minutes, in seconds: how long a signalled band stays valid. */
  const EntryWindow: real := 1800.0

  /** A remembered band and the time it expires. */
  datatype StoredBand = StoredBand(low: real, high: real, expiry: real)

  /** What one tick yields in place of the alert message. */
  datatype Signal = Signal(side: Side, band: Band, priceRef: real, rsi: real, k: real, levels: Levels, expiry: real)

  datatype AlertKind = Fresh | Retest

  datatype Outcome =
    | NoTrend                            // the 1h trend gate returned early
    | NoEntry                            // no rule fired; nothing sent
    | Suppressed(side: Side)             // the entry matched but the cooldown held the alert back
    | Alerted(kind: AlertKind, signal: Signal)
    | Raised                             // the touch test divided by zero

  // ---------------------------------------------------------------------
  // Reading the memory

  /** The cooldown has passed: more than RealertCooldown seconds since the
      symbol's last signal, where a symbol never signalled counts as
      signalled at time 0. */
  function ShouldRealert(lastSignalTime: map<string, real>, sym: string, now: real): (r: bool)
    ensures sym !in lastSignalTime ==> (r <==> now > RealertCooldown)
    ensures sym in lastSignalTime ==> (r <==> now > lastSignalTime[sym] + RealertCooldown)
  {
    var ts := if sym in lastSignalTime then lastSignalTime[sym] else 0.0;
    now - ts > RealertCooldown
  }

  /** A retest of an expired band: a band is remembered for the symbol, it
      has expired, the cooldown has passed and the price is back inside it
      (edges included). */
  function MaybeRealert(lastSignalTime: map<string, real>, lastBand: map<string, StoredBand>,
                        sym: string, price: real, now: real): (r: bool)
    ensures r <==>
              && sym in lastBand
              && now > lastBand[sym].expiry
              && ShouldRealert(lastSignalTime, sym, now)
              && lastBand[sym].low <= price <= lastBand[sym].high
    ensures r ==> sym in lastBand && now - RealertCooldown > (if sym in lastSignalTime then lastSignalTime[sym] else 0.0)
  {
    if sym !in lastBand then false
    else
      var stored := lastBand[sym];
      if now <= stored.expiry then false
      else if !ShouldRealert(lastSignalTime, sym, now) then false
      else stored.low <= price <= stored.high
  }

  /** The alert of a side: levels from the quoted price, valid for EntryWindow. */
  function SignalText(side: Side, band: Band, priceRef: real, rsi: real, k: real, now: real): (s: Signal)
    ensures s.side == side && s.band == band && s.priceRef == priceRef
    ensures s.expiry - now == EntryWindow
    ensures priceRef > 0.0 && side == Long ==> s.levels.sl < priceRef < s.levels.tp1 < s.levels.tp2
    ensures priceRef > 0.0 && side == Short ==> s.levels.tp2 < s.levels.tp1 < priceRef < s.levels.sl
  {
    Signal(side, band, priceRef, rsi, k, BuildSlTp(side.Name(), priceRef), now + EntryWindow)
  }

  // ---------------------------------------------------------------------
  // One tick of check_symbol, as a function of the memory it reads

  /** The 1h bar's EMAs, the last 15m bar with its indicators, and the entry
      band computed for it. */
  datatype Snapshot = Snapshot(
    emaFast1h: real, emaSlow1h: real,
    open: real, high: real, low: real, close: real,
    ema20: real, ema50: real, rsi: real, k: real,
    band: Band)

  function EntryRuleOf(side: Side, snap: Snapshot): Option<bool> {
    EntryRule(side, snap.low, snap.high, snap.close, snap.ema20, snap.ema50, snap.rsi, snap.k)
  }

  /** One side's branch: the entry rule, then an in-band (or slip) alert that
      the cooldown may hold back, else a retest of the remembered band.
      `NoEntry` means the branch falls through. */
  function SideBranch(cfg: Config, side: Side, sym: string, snap: Snapshot, now: real,
                      lastSignalTime: map<string, real>, lastBand: map<string, StoredBand>): (o: Outcome)
    ensures o.Alerted? ==> o.signal.side == side && ShouldRealert(lastSignalTime, sym, now)
    ensures o.Suppressed? ==> o.side == side && !ShouldRealert(lastSignalTime, sym, now)
    ensures o != NoTrend
  {
    var price := PriceRef(cfg, snap.open, snap.close);
    match EntryRuleOf(side, snap)
    case None => Raised
    case Some(false) => NoEntry
    case Some(true) =>
      if Accepts(side, snap.band, price) then
        if ShouldRealert(lastSignalTime, sym, now)
        then Alerted(Fresh, SignalText(side, snap.band, price, snap.rsi, snap.k, now))
        else Suppressed(side)
      else if MaybeRealert(lastSignalTime, lastBand, sym, price, now) then
        Alerted(Retest, SignalText(side, snap.band, price, snap.rsi, snap.k, now))
      else NoEntry
  }

  /** What check_symbol decides for `sym` given the memory: the trend gate,
      the long branch, then (unless long-only) the short branch. */
  function Decide(cfg: Config, sym: string, snap: Snapshot, now: real,
                  lastSignalTime: map<string, real>, lastBand: map<string, StoredBand>): (o: Outcome)
    ensures o.Alerted? ==> ShouldRealert(lastSignalTime, sym, now)
    ensures o.Suppressed? ==> !ShouldRealert(lastSignalTime, sym, now)
    ensures (o.Alerted? && o.signal.side == Long) || o == Suppressed(Long) ==>
              Uptrend(snap.emaFast1h, snap.emaSlow1h) && !Downtrend(snap.emaFast1h, snap.emaSlow1h)
    ensures (o.Alerted? && o.signal.side == Short) || o == Suppressed(Short) ==>
              Downtrend(snap.emaFast1h, snap.emaSlow1h) && !Uptrend(snap.emaFast1h, snap.emaSlow1h) && !cfg.sideLongOnly
    ensures o.Alerted? ==>
              && o.signal.priceRef == PriceRef(cfg, snap.open, snap.close)
              && o.signal.band == snap.band
              && o.signal.levels == BuildSlTp(o.signal.side.Name(), o.signal.priceRef)
              && o.signal.expiry == now + EntryWindow
    ensures o.Alerted? ==> EntryRuleOf(o.signal.side, snap) == Some(true)
    ensures o.Alerted? && o.kind == Fresh ==> Accepts(o.signal.side, snap.band, o.signal.priceRef)
    ensures o.Alerted? && o.kind == Retest ==>
              && !Accepts(o.signal.side, snap.band, o.signal.priceRef)
              && MaybeRealert(lastSignalTime, lastBand, sym, o.signal.priceRef, now)
    ensures o == NoTrend <==>
              if cfg.sideLongOnly then !Uptrend(snap.emaFast1h, snap.emaSlow1h)
              else snap.emaFast1h == snap.emaSlow1h
    ensures o == NoTrend <==> TrendSide(cfg, snap) == None
    ensures o == Raised <==> TrendSide(cfg, snap).Some? && Touched(snap.low, snap.high, snap.close, snap.ema20) == None
    ensures TrendSide(cfg, snap).Some? && EntryRuleOf(TrendSide(cfg, snap).value, snap) == Some(false) ==> o == NoEntry
  {
    var up := Uptrend(snap.emaFast1h, snap.emaSlow1h);
    var down := Downtrend(snap.emaFast1h, snap.emaSlow1h);
    if (cfg.sideLongOnly && !up) || (!cfg.sideLongOnly && !(up || down)) then NoTrend
    else
      var first := if up then SideBranch(cfg, Long, sym, snap, now, lastSignalTime, lastBand) else NoEntry;
      if first != NoEntry then first
      else if !cfg.sideLongOnly && down then SideBranch(cfg, Short, sym, snap, now, lastSignalTime, lastBand)
      else NoEntry
  }

  /** The side the 1h trend allows, if any. */
  function TrendSide(cfg: Config, snap: Snapshot): Option<Side> {
    if Uptrend(snap.emaFast1h, snap.emaSlow1h) then Some(Long)
    else if !cfg.sideLongOnly && Downtrend(snap.emaFast1h, snap.emaSlow1h) then Some(Short)
    else None
  }

  /** After the entry rule fires and the price is in the band (or within the
      slip), the tick ends there: it alerts exactly when the cooldown has
      passed, and otherwise stays silent without trying the retest path. */
  lemma InBandMatchEndsTick(cfg: Config, sym: string, snap: Snapshot, now: real,
                            lastSignalTime: map<string, real>, lastBand: map<string, StoredBand>)
    requires TrendSide(cfg, snap).Some?
    requires EntryRuleOf(TrendSide(cfg, snap).value, snap) == Some(true)
    requires Accepts(TrendSide(cfg, snap).value, snap.band, PriceRef(cfg, snap.open, snap.close))
    ensures var o := Decide(cfg, sym, snap, now, lastSignalTime, lastBand);
            && (o.Alerted? <==> ShouldRealert(lastSignalTime, sym, now))
            && (o.Alerted? ==> o.kind == Fresh && o.signal.side == TrendSide(cfg, snap).value)
            && (!o.Alerted? ==> o == Suppressed(TrendSide(cfg, snap).value))
  {
  }

  /** When the entry rule fires but the price is outside the band (and the
      slip), a retest of the remembered, expired band re-alerts that side. */
  lemma RetestAlerts(cfg: Config, sym: string, snap: Snapshot, now: real,
                     lastSignalTime: map<string, real>, lastBand: map<string, StoredBand>)
    requires TrendSide(cfg, snap).Some?
    requires EntryRuleOf(TrendSide(cfg, snap).value, snap) == Some(true)
    requires !Accepts(TrendSide(cfg, snap).value, snap.band, PriceRef(cfg, snap.open, snap.close))
    requires MaybeRealert(lastSignalTime, lastBand, sym, PriceRef(cfg, snap.open, snap.close), now)
    ensures Decide(cfg, sym, snap, now, lastSignalTime, lastBand)
            == Alerted(Retest, SignalText(TrendSide(cfg, snap).value, snap.band, PriceRef(cfg, snap.open, snap.close),
                                          snap.rsi, snap.k, now))
  {
  }

  /** With the maps keyed alike (as the memory keeps them), a retest only
      happens for a symbol whose last signal time is recorded, so the
      time-0 default for unseen symbols never applies on that path. */
  lemma RetestUsesRecordedTime(lastSignalTime: map<string, real>, lastBand: map<string, StoredBand>,
                               sym: string, price: real, now: real)
    requires lastSignalTime.Keys == lastBand.Keys
    requires MaybeRealert(lastSignalTime, lastBand, sym, price, now)
    ensures sym in lastSignalTime && now > lastSignalTime[sym] + RealertCooldown
  {
  }

  /** As shipped (Fibonacci band on, both sides, quoting the close), a
      downtrend tick whose short rule fires on an accepted close alerts SHORT
      once the cooldown has passed. */
  lemma ShippedConfigAlertsShort(sym: string, snap: Snapshot, now: real,
                                 lastSignalTime: map<string, real>, lastBand: map<string, StoredBand>)
    requires Downtrend(snap.emaFast1h, snap.emaSlow1h)
    requires EntryRuleOf(Short, snap) == Some(true)
    requires Accepts(Short, snap.band, snap.close)
    requires ShouldRealert(lastSignalTime, sym, now)
    ensures Decide(DefaultConfig, sym, snap, now, lastSignalTime, lastBand)
            == Alerted(Fresh, SignalText(Short, snap.band, snap.close, snap.rsi, snap.k, now))
  {
  }

  /** A signal recorded at `t0` silences every tick of that symbol up to
      RealertCooldown seconds later, whatever the bar looks like. */
  lemma {:induction false} NoAlertWithinCooldown(cfg: Config, sym: string, snap: Snapshot, t0: real, now: real,
                                                 lastSignalTime: map<string, real>, lastBand: map<string, StoredBand>,
                                                 band: StoredBand)
    requires now <= t0 + RealertCooldown
    ensures !Decide(cfg, sym, snap, now, lastSignalTime[sym := t0], lastBand[sym := band]).Alerted?
  {
    assert !ShouldRealert(lastSignalTime[sym := t0], sym, now);
  }

  // ---------------------------------------------------------------------
  // The memory itself, updated in place

  class RetraceMemory {
    var lastSignalTime: map<string, real>
    var lastBand: map<string, StoredBand>
    var lastSide: map<string, string>

    /** The three maps hold the same symbols: mark_signal writes all three. */
    ghost predicate Valid()
      reads this
    {
      lastSignalTime.Keys == lastBand.Keys == lastSide.Keys
    }

    constructor ()
      ensures Valid()
      ensures lastSignalTime == map[] && lastBand == map[] && lastSide == map[]
    {
      lastSignalTime, lastBand, lastSide := map[], map[], map[];
    }

    /** Record a signal for `sym` at `now`: only that symbol's entries of
        the three maps change. */
    method MarkSignal(sym: string, bandLow: real, bandHigh: real, expiry: real, side: string, now: real)
      requires Valid()
      modifies this
      ensures Valid()
      ensures lastSignalTime == old(lastSignalTime)[sym := now]
      ensures lastBand == old(lastBand)[sym := StoredBand(bandLow, bandHigh, expiry)]
      ensures lastSide == old(lastSide)[sym := side]
      ensures forall s :: s != sym ==> ShouldRealert(lastSignalTime, s, now) == old(ShouldRealert(lastSignalTime, s, now))
      ensures forall t :: ShouldRealert(lastSignalTime, sym, t) <==> t > now + RealertCooldown
    {
      lastSignalTime := lastSignalTime[sym := now];
      lastBand := lastBand[sym := StoredBand(bandLow, bandHigh, expiry)];
      lastSide := lastSide[sym := side];
    }

    /** One tick for `sym`: the guarded steps of check_symbol with their early
        returns. The maps change exactly when an alert goes out. */
    method CheckSymbol(cfg: Config, sym: string, snap: Snapshot, now: real) returns (o: Outcome)
      requires Valid()
      modifies this
      ensures Valid()
      ensures o == Decide(cfg, sym, snap, now, old(lastSignalTime), old(lastBand))
      ensures o.Alerted? ==>
                && lastSignalTime == old(lastSignalTime)[sym := now]
                && lastBand == old(lastBand)[sym := StoredBand(snap.band.low, snap.band.high, now + EntryWindow)]
                && lastSide == old(lastSide)[sym := o.signal.side.Name()]
      ensures !o.Alerted? ==> unchanged(this)
    {
      // 1) Trend filter (1h)
      var up := Uptrend(snap.emaFast1h, snap.emaSlow1h);
      var down := Downtrend(snap.emaFast1h, snap.emaSlow1h);
      if cfg.sideLongOnly {
        if !up { return NoTrend; }
      } else {
        if !(up || down) { return NoTrend; }
      }

      // 2) Entry timing (15m)
      var priceRef := PriceRef(cfg, snap.open, snap.close);

      if up {
        var rule := EntryRuleOf(Long, snap);
        if rule == None { return Raised; }
        if rule.value {
          if Accepts(Long, snap.band, priceRef) {
            var signal := SignalText(Long, snap.band, priceRef, snap.rsi, snap.k, now);
            if ShouldRealert(lastSignalTime, sym, now) {
              MarkSignal(sym, snap.band.low, snap.band.high, signal.expiry, "LONG", now);
              return Alerted(Fresh, signal);
            }
            return Suppressed(Long);
          }
          if MaybeRealert(lastSignalTime, lastBand, sym, priceRef, now) {
            var signal := SignalText(Long, snap.band, priceRef, snap.rsi, snap.k, now);
            MarkSignal(sym, snap.band.low, snap.band.high, signal.expiry, "LONG", now);
            return Alerted(Retest, signal);
          }
        }
      }

      if !cfg.sideLongOnly && down {
        var rule := EntryRuleOf(Short, snap);
        if rule == None { return Raised; }
        if rule.value {
          if Accepts(Short, snap.band, priceRef) {
            var signal := SignalText(Short, snap.band, priceRef, snap.rsi, snap.k, now);
            if ShouldRealert(lastSignalTime, sym, now) {
              MarkSignal(sym, snap.band.low, snap.band.high, signal.expiry, "SHORT", now);
              return Alerted(Fresh, signal);
            }
            return Suppressed(Short);
          }
          if MaybeRealert(lastSignalTime, lastBand, sym, priceRef, now) {
            var signal := SignalText(Short, snap.band, priceRef, snap.rsi, snap.k, now);
            MarkSignal(sym, snap.band.low, snap.band.high, signal.expiry, "SHORT", now);
            return Alerted(Retest, signal);
          }
        }
      }
      return NoEntry;
    }
  }
}
