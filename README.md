# Signal bots: decision cores

This project models the decision cores of two Binance-futures signal bots that send Telegram alerts.

- **salamprofit.py** is the retrace bot. A strict 1h EMA50/EMA200 comparison sets the trend. An entry needs a 15m bar that touches EMA20, closes on the correct side of EMA50, and has RSI and StochRSI %K inside inclusive bands. The entry band is built from the median of EMA20 and the 0.5/0.618 Fibonacci levels of the previous 20-bar swing, with a 0.08 % buffer. A 0.25 % slip tolerance applies beyond the band's far edge. Stop-loss and TP1/TP2 are 0.6 %, 1.2 % and 2.0 % from the quoted price. Three symbol-keyed maps (`last_signal_time`, `last_band`, `last_side`) drive a 20-minute anti-spam cooldown, and they allow a re-alert when the price comes back into an expired band.
- **sinyalbot.py** is the breakout bot. Strict comparisons set flags on the last bar of the 1m, 5m, 15m and 1h frames. A long needs all four frames trending up, plus a 1m upper-band breakout, a volume spike and ADX > 25. A short is the mirror. The stop-loss is one ATR from the price. The size is the 0.6 USD risk over the stop distance, times leverage 20, rounded to two decimals, and it is 0 when the distance is 0. TP ladders sit at 2/4/6 %. A per-symbol cooldown map holds a 300 s window.

Prices are `real`. Indicator values (EMA, SMA, RSI, StochRSI, ADX, ATR, Bollinger bands) are inputs. Wall-clock time is an explicit `now` parameter in seconds. The retrace bot's mode switches (`USE_FIB`, `SIDE_LONG_ONLY`, `CONFIRM_ON_CLOSE`) are a `Config` value, and `DefaultConfig` holds the shipped settings. The breakout bot has no mode switches.

Files:
- `common.dfy` holds `Option` and `Abs`.
- `retrace_rules.dfy` holds the pure rules of salamprofit.py.
- `retrace_alerts.dfy` holds the re-alert maps and one `check_symbol` tick. A class `RetraceMemory` owns the three maps. `MarkSignal` and `CheckSymbol` update them in place, and `CheckSymbol` is proved equal to the function `Decide`.
- `breakout.dfy` holds sinyalbot.py. A class `CooldownBook` owns the `cooldowns` map, and `CheckSignal` is proved against `Evaluate` and `InCooldown`.

In sinyalbot.py, lines 103-110 are indented with tabs while the rest of the block uses spaces, so Python 3 would refuse the file. The model treats these lines as part of the block at lines 100-102, which is evidently what was meant.

A zero stop distance does not suppress the breakout signal: the size is set to 0, and the signal is still sent and the cooldown recorded (sinyalbot.py:106-114). The model does the same (`PositionSize`, `Evaluate`).

## Model

| member | source | states |
|---|---|---|
| RetraceRules.Uptrend | salamprofit.py:133-136 | the up flag holds exactly when the fast 1h EMA is strictly above the slow one, so equal EMAs are not an uptrend |
| RetraceRules.Downtrend | salamprofit.py:138-141 | the down flag holds exactly when the fast 1h EMA is strictly below the slow one, so equal EMAs are not a downtrend |
| RetraceRules.TrendFlags | salamprofit.py:133-141 | the up and down trend flags never both hold, and one of them holds exactly when the two EMAs differ |
| RetraceRules.BuildSlTp | salamprofit.py:150-159 | for "LONG" and a positive price, sl < price < tp1 < tp2; for any other side string, tp2 < tp1 < price < sl; the distances from the price are exactly 0.6 %, 1.2 % and 2.0 % of it |
| RetraceRules.LevelsMirror | salamprofit.py:150-159 | the short levels are the long levels reflected through the price |
| RetraceRules.LookbackWindow | salamprofit.py:166-167 | the window is the min(n-1, 20) bars just before the last one |
| RetraceRules.SeqMax | salamprofit.py:166 | the swing high is an element of the window and no element exceeds it |
| RetraceRules.SeqMin | salamprofit.py:167 | the swing low is an element of the window and no element is below it |
| RetraceRules.FibLevels | salamprofit.py:168-169 | when hh >= ll, ll <= fib50 <= fib618 <= hh; each level is ll plus its fraction of the swing |
| RetraceRules.Median3 | salamprofit.py:172-173 | the median is one of its three arguments, with at least two arguments on each side of it |
| RetraceRules.Median3Monotone | salamprofit.py:172-173 | raising any argument never lowers the median |
| RetraceRules.RawFibBand | salamprofit.py:172-173 | before the swap guard, each buffered median lies between the two buffered Fibonacci levels, whatever EMA20 is |
| RetraceRules.ComputeFibBand | salamprofit.py:161-176 | with the Fibonacci band on, the swap guard gives low <= high; with it off, the band is exactly EMA20·(1∓0.0008); for a non-negative EMA20, low <= high in either mode |
| RetraceRules.FibBandNeedsNoSwap | salamprofit.py:172-175 | for non-negative EMA20 and Fibonacci levels, the buffered medians are already ordered, so the swap guard never fires |
| RetraceRules.FibBandWithinSwing | salamprofit.py:166-176 | for non-negative bars whose lows do not exceed their highs, the band lies within the buffered swing low and swing high, whatever EMA20 is and whether or not the swap guard fires |
| RetraceRules.Touched | salamprofit.py:269 | a bar whose range straddles EMA20 touches it; otherwise, for a positive EMA20, it touches iff the close is within 0.15 % of EMA20; the test raises (None) exactly when EMA20 is 0 and not straddled |
| RetraceRules.RelativeDistanceBelow | salamprofit.py:269 | for a positive base, abs(d)/base < tol iff d lies strictly within tol·base of 0 |
| RetraceRules.EntryRule | salamprofit.py:267-298 | the rule fires iff the bar touches EMA20, the close is strictly on the side's side of EMA50, RSI is in [45,60] (long) or [40,55] (short), and %K is in [0.25,0.65] or [0.35,0.75], inclusive; it raises exactly when the touch test raises |
| RetraceRules.PriceRef | salamprofit.py:264 | the quoted price is the close with confirm-on-close and the open otherwise |
| RetraceRules.Accepts | salamprofit.py:276-300 | a price inside the band is always accepted; for a long with a non-negative band high, acceptance is exactly price <= high·1.0025; for a short with a non-negative band low, acceptance is exactly price >= low·0.9975 |
| RetraceAlerts.ShouldRealert | salamprofit.py:198-202 | true iff more than 1200 s have passed since the symbol's last signal, strictly; an unseen symbol counts as signalled at time 0 |
| RetraceAlerts.MaybeRealert | salamprofit.py:209-221 | true iff a band is stored for the symbol, now is past its expiry, the cooldown has passed, and the price is inside the stored band with the edges included; it only reads the maps |
| RetraceAlerts.SignalText | salamprofit.py:223-237 | the alert expires ENTRY_WINDOW_MIN·60 = 1800 s after now; its SL/TP levels are ordered around a positive quoted price as build_sl_tp promises |
| RetraceAlerts.SideBranch | salamprofit.py:274-290 | a side's branch alerts only when the cooldown has passed; it is held back (Suppressed) only when the cooldown blocks it |
| RetraceAlerts.Decide | salamprofit.py:239-312 | every alert is guarded by should_realert; a long alert or hold-back needs up and not down; a short one needs down, not up, and not long-only; the alert quotes the close (or open), the snapshot band, the build_sl_tp levels and an expiry of now+1800; a fresh alert needs the entry rule and band acceptance; a retest alert needs the entry rule, no band acceptance and maybe_realert; the tick stops at the trend gate iff no side is allowed; it raises iff a side is allowed and the touch test raises; a side whose entry rule fails gives no alert |
| RetraceAlerts.InBandMatchEndsTick | salamprofit.py:274-283 | once the trend side's entry rule fires and the price is accepted, the tick alerts (fresh, that side) iff the cooldown has passed, and is otherwise held back; it never falls through to the re-alert path |
| RetraceAlerts.RetestAlerts | salamprofit.py:284-290 | when the trend side's entry rule fires, the price is not accepted, and maybe_realert holds, the tick re-alerts that side with the retest signal |
| RetraceAlerts.RetestUsesRecordedTime | salamprofit.py:198-221 | with the maps keyed alike, a retest happens only for a symbol whose last signal time is recorded, and only more than 1200 s after it |
| RetraceAlerts.ShippedConfigAlertsShort | salamprofit.py:58-59 | with the shipped switches, a downtrend tick whose short rule fires on an accepted close alerts SHORT once the cooldown has passed |
| RetraceAlerts.NoAlertWithinCooldown | salamprofit.py:198-207 | after a signal recorded at t0, no tick of that symbol at or before t0+1200 alerts, whatever the bar |
| RetraceAlerts.RetraceMemory.constructor | salamprofit.py:193-196 | the three maps start empty and keyed alike |
| RetraceAlerts.RetraceMemory.MarkSignal | salamprofit.py:204-207 | overwrites exactly the symbol's entries in the three maps (time now, band with expiry, side), keeping the three maps keyed alike; other symbols' cooldowns are unchanged; afterwards the symbol may re-alert exactly after now+1200 |
| RetraceAlerts.RetraceMemory.CheckSymbol | salamprofit.py:239-312 | the tick's outcome equals Decide on the old maps; the maps change only on an alert, and then exactly the symbol's entries (time now, the snapshot band expiring at now+1800, the alert's side), keeping them keyed alike; otherwise nothing changes |
| Breakout.WindowMean | sinyalbot.py:61 | the rolling mean times 20 is the sum of the last 20 volumes, and it is non-negative when those volumes are |
| Breakout.VolumeSpike | sinyalbot.py:61 | a spike needs at least 20 bars, and then it is exactly the last volume > 1.5 × the mean of the last 20 volumes |
| Breakout.Analyze | sinyalbot.py:53-66 | trend_up is ma_fast > ma_slow, breakout_up is close > bb_upper, breakout_down is close < bb_lower, strong_adx is adx > 25, all strict; with ordered bands the two breakouts exclude each other |
| Breakout.FlatVolumeNoSpike | sinyalbot.py:61 | a constant non-negative volume column never produces a spike |
| Breakout.SpikeAboveMean | sinyalbot.py:61 | with non-negative volumes, a spike puts the last volume strictly above the rolling mean, and the last volume is positive |
| Breakout.CondUp | sinyalbot.py:80-88 | a long needs trend_up on 1m, 5m, 15m and 1h, plus the 1m breakout_up, volume_spike and strong_adx |
| Breakout.CondDown | sinyalbot.py:90-98 | a short needs no trend_up on any of the four frames, plus the 1m breakout_down, volume_spike and strong_adx |
| Breakout.CondRules | sinyalbot.py:80-98 | cond_up and cond_down are mutually exclusive; each holds iff all seven of its conditions hold |
| Breakout.DisagreementBlocks | sinyalbot.py:80-98 | a frame whose trend disagrees with the 1m trend blocks both rules |
| Breakout.StopLoss | sinyalbot.py:103-104 | abs(price − sl) = abs(atr); for a positive ATR the stop is below the price for a long and above it otherwise |
| Breakout.RoundHalfEven | sinyalbot.py:110 | the result is an integer within 0.5 of the input, even on an exact tie, and non-negative for a non-negative input |
| Breakout.Round2 | sinyalbot.py:110 | the result is a whole number of hundredths within 0.005 of the input, an even number of hundredths on an exact tie, and non-negative for a non-negative input |
| Breakout.RiskSize | sinyalbot.py:102-110 | the unrounded size is positive, and size × stop distance = MODAL_TOTAL·RISK_PER_TRADE·LEVERAGE = 12 |
| Breakout.PositionSize | sinyalbot.py:102-110 | size is 0 when the stop equals the price; otherwise it is within 0.005 of (0.6 / abs(price − sl)) × 20; it is never negative |
| Breakout.LongLadder | sinyalbot.py:116-119 | tp1, tp2 and tp3 are 2 %, 4 % and 6 % above the price, and strictly increasing above a positive price |
| Breakout.ShortLadder | sinyalbot.py:129-132 | tp1, tp2 and tp3 are 2 %, 4 % and 6 % below the price, and strictly decreasing below a positive price |
| Breakout.LaddersMirror | sinyalbot.py:116-132 | the short ladder is the long ladder reflected through the price |
| Breakout.Evaluate | sinyalbot.py:75-140 | the price is the 1m close; abs(price − sl) = abs(atr); the size is PositionSize of price and stop: 0 when atr = 0, otherwise within 0.005 of (0.6 / abs(atr)) × 20, never negative; a long call is made iff cond_up and carries the long ladder; a short call is made iff cond_down and carries the short ladder, so at most one call per tick |
| Breakout.InCooldown | sinyalbot.py:71-73 | an unseen symbol is never cooling down; a seen symbol is cooling down iff now < cooldowns[symbol] + 300 |
| Breakout.CooldownAfterRecord | sinyalbot.py:71-114 | after recording at t0, the symbol is cooling down iff t < t0+300; at exactly t0+300 the tick goes ahead |
| Breakout.CooldownBook.constructor | sinyalbot.py:30 | the cooldown map starts empty |
| Breakout.CooldownBook.CheckSignal | sinyalbot.py:68-143 | a symbol still cooling down returns with no state change; otherwise the outcome is Evaluate of the four frames, and cooldowns[symbol] is set to now iff cond_up or cond_down holds, with no other entry changed |

## Left out

- Binance calls are not modelled: fetching klines and exchange info, ping, margin type and leverage (salamprofit.py:110-122, 178-191; sinyalbot.py:37-51). They are network I/O.
- Telegram sending and console printing are not modelled, because they are fire-and-forget I/O. The `Outcome`, `Signal` and `Call` values carry what the message would report.
- The append to `log_sinyal.txt` (sinyalbot.py:142-143) is file I/O. It runs for every symbol past the cooldown gate, and it labels a tick with no signal as SHORT.
- Indicator computation with `ta`/pandas is not modelled. EMA, SMA, RSI, StochRSI, ADX, ATR and Bollinger values are inputs, and the column writes into the DataFrame are left out. The 20-bar rolling volume mean is the one exception: `VolumeSpike` computes it.
- Floating point is not modelled: prices are exact reals. NaN values from indicators without enough bars are not modelled either. In Python every comparison with NaN is false. The volume mean with fewer than 20 bars is the one NaN case the model covers.
- `fmt`, the f-string message bodies and the `%H:%M UTC` expiry text are not modelled. They are formatting only.
- Round2 rounds the exact real value. Python's `round(x, 2)` rounds the binary float, so it can differ from Round2 on values that look like exact ties.
- ComputeFibBand: with the Fibonacci band on, it requires at least two 15m bars. With a single bar, the lookback window is empty and the source produces a NaN band.
- CheckSymbol: takes the entry band in its snapshot, as ComputeFibBand computes it from the 15m columns, instead of taking the columns themselves.
- Only one exception path is modelled: the ZeroDivisionError of the touch test (`Raised`). It leaves the maps unchanged. The other exceptions are not represented:
  - In salamprofit.py, a failed candle fetch or an empty frame raises before `mark_signal`, so the tick ends with no state change. A failed Telegram send is caught inside `tg` (salamprofit.py:101-108), so the alert is still recorded.
  - In sinyalbot.py, a failed candle fetch raises before `cooldowns` is written, so the tick ends with no state change. `send_telegram` (sinyalbot.py:32-35) has no `try`. A failed post at line 127 or 140 therefore raises after `cooldowns[symbol] = now` (line 114). `check_signal` catches it, so the cooldown stays recorded and only the log line is skipped. The model's new state matches that case.
- The source calls `time.time()` separately in `should_realert`, `signal_text` and `mark_signal`. The model uses one `now` per tick.
- The `while True` scan loops, the sleep pacing and the exception swallowing in `main` are not modelled. The model covers one tick per call.
- Neither file tracks open positions, trailing stops, hit take-profit flags or reversals. Those belong to other bots in the repository and are not part of this model.
