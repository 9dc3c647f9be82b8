/**
 * The LPC810 windowed watchdog library: the oscillator-control arithmetic, the
 * millisecond-to-tick conversion, and the ordered programming of the watchdog unit,
 * its feed sequence and its warning-interrupt handler.
 *
 * The library's two module variables (the selected band's base frequency and the
 * divider) are the fields of class `Wdt`; the conversions that read them are pure
 * functions that take them as arguments.
 */
module Watchdog {
  import opened Hardware

  // WDTOSCCTRL layout (UM10601, section 4.6.6): DIVSEL in bits 0..4, FREQSEL in bits 5..8.
  const FreqPos: bv32 := 5
  const DivSelOffset: nat := 2
  const DivSelRate: nat := 2

  // Fixed watchdog prescaler and the milliseconds-per-second factor (UM10601, section 12.6.4).
  const PreDiv: nat := 4
  const SecUnit: nat := 1000

  // Largest values of the three counters.
  const CounterMax: nat := 0xFF_FFFF
  const WindowMax: nat := 0xFF_FFFF
  const WarnMax: nat := 0x3FF

  // The feed sequence (UM10601, section 12.6.3).
  const FeedFirst: Word := 0xAA
  const FeedSecond: Word := 0x55

  const Uint32Limit: nat := 0x1_0000_0000
  const Uint64Limit: nat := 0x1_0000_0000_0000_0000

  /** Base frequency in Hz of each FREQSEL band; band 0 disables the oscillator. */
  const FreqSel: seq<nat> := [
    0, 600000, 1050000, 1400000, 1750000, 2100000, 2400000, 2700000,
    3000000, 3250000, 3500000, 3750000, 4000000, 4200000, 4400000, 4600000]

  /** The oscillator output divider must be even and between 2 and 64. */
  predicate ValidDivider(div: nat)
  {
    2 <= div <= 64 && div % 2 == 0
  }

  /** The frequency band encoded in a WDTOSCCTRL word. */
  function BandOf(w: Word): nat
  {
    ((w >> FreqPos) & 0xF) as bv4 as nat
  }

  /** The output divider encoded in a WDTOSCCTRL word. */
  function DividerOf(w: Word): nat
  {
    DivSelRate * ((w & 0x1F) as bv5 as nat) + DivSelOffset
  }

  /**
   * Wdt_calcOscCtrl's result: FREQSEL and DIVSEL packed into one word. The two fields
   * occupy bits 5..8 and 0..4, so each is recovered unchanged and nothing lies above bit 8.
   */
  function OscCtrlWord(band: nat, div: nat): (w: Word)
    requires band < 16 && ValidDivider(div)
    ensures BandOf(w) == band && DividerOf(w) == div
    ensures w < 0x200
  {
    var freqSel := band as bv4;
    var divSel := ((div - DivSelOffset) / DivSelRate) as bv5;
    ((freqSel as Word) << FreqPos) | (divSel as Word)
  }

  /** Wdt_getMs: watchdog ticks in `ms` milliseconds, saturated at `max`. */
  function MsToTicks(freq: nat, div: nat, ms: nat, max: nat): (r: nat)
    requires div > 0
    ensures r <= max
  {
    var cnt := (freq * ms) / (div * PreDiv * SecUnit);
    if cnt > max then max else cnt
  }

  /**
   * Below saturation the tick count is the number of whole ticks of the divided and
   * prescaled clock in `ms` milliseconds; at saturation at least `max` whole ticks fit.
   */
  lemma MsToTicksMeaning(freq: nat, div: nat, ms: nat, max: nat)
    requires div > 0
    ensures var r := MsToTicks(freq, div, ms, max);
      && (r < max ==> r * (div * PreDiv * SecUnit) <= freq * ms < (r + 1) * (div * PreDiv * SecUnit))
      && (r == max ==> max * (div * PreDiv * SecUnit) <= freq * ms)
  {
  }

  /** No time gives no ticks, whatever the clock and the maximum. */
  lemma MsToTicksZero(freq: nat, div: nat, max: nat)
    requires div > 0
    ensures MsToTicks(freq, div, 0, max) == 0
  {
  }

  /** Wdt_getOscClk: the watchdog oscillator's output frequency in Hz. */
  function OscClock(freq: nat, div: nat): (r: nat)
    requires div > 0
    ensures r * div <= freq < (r + 1) * div
  {
    freq / div
  }

  /** The watchdog settings fixed at build time. */
  datatype WdtConfig = WdtConfig(
    mode: Word,        // MOD value: WDEN and WDRESET
    band: nat,         // FREQSEL band, 0..15
    div: nat,          // oscillator output divider
    timeoutMs: nat,    // time without a feed until the watchdog expires
    guardMs: nat,      // time after a feed during which another feed is refused
    warnMs: nat)       // remaining time at which the warning interrupt fires
  {
    predicate Valid()
    {
      && band < 16
      && ValidDivider(div)
      && timeoutMs < Uint32Limit
      && guardMs <= timeoutMs
      && warnMs < Uint32Limit
    }
  }

  /** The settings shipped in core.h. */
  const DefaultWdt: WdtConfig := WdtConfig(WdEn | WdReset, 1, 64, 2000, 0, 200)

  function TimeoutTicks(c: WdtConfig): (r: nat)
    requires c.Valid()
    ensures r <= CounterMax
  {
    MsToTicks(FreqSel[c.band], c.div, c.timeoutMs, CounterMax)
  }

  function WindowTicks(c: WdtConfig): (r: nat)
    requires c.Valid()
    ensures r <= WindowMax
  {
    MsToTicks(FreqSel[c.band], c.div, c.timeoutMs - c.guardMs, WindowMax)
  }

  function WarningTicks(c: WdtConfig): (r: nat)
    requires c.Valid()
    ensures r <= WarnMax
  {
    MsToTicks(FreqSel[c.band], c.div, c.warnMs, WarnMax)
  }

  /** Wdt_clr's bus operations. */
  const FeedEvents: seq<Event> := [Write(WdtFeed, FeedFirst), Write(WdtFeed, FeedSecond)]

  /** Wdt_ini's bus operations, in order: oscillator set-up, counter loading, start, warning threshold. */
  function IniEvents(c: WdtConfig): seq<Event>
    requires c.Valid()
  {
    OscEvents(c) + LoadEvents(c) + StartEvents(c) + [WriteCount(WdtWarnInt, WarningTicks(c))]
  }

  /** The oscillator is configured, powered and connected to the bus clock. */
  function OscEvents(c: WdtConfig): seq<Event>
    requires c.Valid()
  {
    [ Write(WdtOscCtrl, OscCtrlWord(c.band, c.div)),
      ClearBits(PdRunCfg, WdtOscPd),
      SetBits(SysAhbClkCtrl, AhbWwdt) ]
  }

  /** TC and WINDOW are loaded and the interrupt is enabled. */
  function LoadEvents(c: WdtConfig): seq<Event>
    requires c.Valid()
  {
    [ WriteCount(WdtTc, TimeoutTicks(c)),
      WriteCount(WdtWindow, WindowTicks(c)),
      EnableWdtIrq ]
  }

  /** MOD is written and the first feed starts the counter. */
  function StartEvents(c: WdtConfig): seq<Event>
  {
    [Write(WdtMod, c.mode)] + FeedEvents
  }

  /** The MOD value after the warning interrupt is acknowledged: WDINT set, WDTOF cleared. */
  function AckWarning(mod: Word): (r: Word)
    ensures r & WdInt == WdInt && r & WdTof == 0
    ensures r & !(WdInt | WdTof) == mod & !(WdInt | WdTof)
  {
    Cleared(Raised(mod, WdInt), WdTof)
  }

  /** The state of the watchdog library: the band's base frequency and the divider. */
  class Wdt {
    var freq: nat
    var div: nat

    constructor ()
      ensures freq == 0 && div == 0
    {
      freq := 0;
      div := 0;
    }

    /** Wdt_calcOscCtrl: records the band's frequency and the divider, and returns WDTOSCCTRL. */
    method CalcOscCtrl(band: nat, d: nat) returns (w: Word)
      requires band < 16 && ValidDivider(d)
      modifies this
      ensures freq == FreqSel[band] && div == d
      ensures w == OscCtrlWord(band, d)
    {
      freq := FreqSel[band];
      div := d;
      w := OscCtrlWord(band, d);
    }

    /** Wdt_getOscClk: the oscillator's output frequency from the recorded band frequency and divider. */
    function GetOscClk(): (hz: nat)
      requires div > 0
      reads this
      ensures hz * div <= freq < (hz + 1) * div
    {
      OscClock(freq, div)
    }

    /** Wdt_ini: programs the oscillator and the counters, starts the watchdog, then sets the warning. */
    method Ini(hw: Chip, c: WdtConfig)
      requires hw.Valid() && c.Valid()
      modifies this, hw
      ensures freq == FreqSel[c.band] && div == c.div
      ensures hw.Valid() && hw.reset == old(hw.reset)
      ensures hw.trace == old(hw.trace) + IniEvents(c)
      ensures hw.Regs() == Replay(old(hw.Regs()), IniEvents(c))
    {
      var w := CalcOscCtrl(c.band, c.div);
      hw.Perform(Write(WdtOscCtrl, w));
      hw.Perform(ClearBits(PdRunCfg, WdtOscPd));
      hw.Perform(SetBits(SysAhbClkCtrl, AhbWwdt));

      var tc := MsToTicks(freq, div, c.timeoutMs, CounterMax);
      hw.Perform(WriteCount(WdtTc, tc));
      var window := MsToTicks(freq, div, c.timeoutMs - c.guardMs, WindowMax);
      hw.Perform(WriteCount(WdtWindow, window));
      hw.Perform(EnableWdtIrq);

      hw.Perform(Write(WdtMod, c.mode));
      Clr(hw);

      // The warning threshold is written only once the counter runs.
      var warn := MsToTicks(freq, div, c.warnMs, WarnMax);
      hw.Perform(WriteCount(WdtWarnInt, warn));
      assert hw.trace == old(hw.trace) + IniEvents(c);
      assert hw.Regs() == Replay(old(hw.Regs()), IniEvents(c)) by {
        ReplayAppend(hw.reset, old(hw.trace), IniEvents(c));
      }
    }
  }

  /** Wdt_clr: the two-word feed. */
  method Clr(hw: Chip)
    requires hw.Valid()
    modifies hw
    ensures hw.Valid() && hw.reset == old(hw.reset)
    ensures hw.trace == old(hw.trace) + FeedEvents
  {
    hw.Perform(Write(WdtFeed, FeedFirst));
    hw.Perform(Write(WdtFeed, FeedSecond));
  }

  /** WDT_IRQHandler's operations: the hook, then WDINT set, then WDTOF cleared. */
  const WarnEvents: seq<Event> := [WarnHook, SetBits(WdtMod, WdInt), ClearBits(WdtMod, WdTof)]

  /** WDT_IRQHandler: calls the warning hook, then acknowledges the interrupt in MOD. */
  method IrqHandler(hw: Chip)
    requires hw.Valid()
    modifies hw
    ensures hw.Valid() && hw.reset == old(hw.reset)
    ensures hw.trace == old(hw.trace) + WarnEvents
    ensures hw.Regs() == Replay(old(hw.Regs()), WarnEvents)
  {
    hw.Perform(WarnHook);
    hw.Perform(SetBits(WdtMod, WdInt));
    hw.Perform(ClearBits(WdtMod, WdTof));
    ReplayAppend(hw.reset, old(hw.trace), WarnEvents);
  }

  // ---------------------------------------------------------------------------
  // The oscillator table and the conversions

  /** Band 0 switches the oscillator off; the fifteen others rise strictly from 600 kHz to 4.6 MHz. */
  lemma FreqSelBands()
    ensures |FreqSel| == 16 && FreqSel[0] == 0
    ensures forall b :: 1 <= b < 16 ==> 600000 <= FreqSel[b] <= 4600000
    ensures forall a, b :: 0 <= a < b < 16 ==> FreqSel[a] < FreqSel[b]
  {
  }

  /** A longer time never gives fewer ticks. */
  lemma {:induction false} MsToTicksMonotonic(freq: nat, div: nat, ms: nat, ms': nat, max: nat)
    requires div > 0 && ms <= ms'
    ensures MsToTicks(freq, div, ms, max) <= MsToTicks(freq, div, ms', max)
  {
    var d := div * PreDiv * SecUnit;
    assert freq * ms <= freq * ms' by {
      MulLeftMonotonic(freq, ms, ms');
    }
    DivMonotonic(freq * ms, freq * ms', d);
  }

  lemma MulLeftMonotonic(a: nat, x: nat, y: nat)
    requires x <= y
    ensures a * x <= a * y
  {
    assert a * y == a * x + a * (y - x);
  }

  lemma DivMonotonic(x: nat, y: nat, d: nat)
    requires d > 0 && x <= y
    ensures x / d <= y / d
  {
    var q, p := x / d, y / d;
    if q > p {
      MulLeftMonotonic(d, p + 1, q);
      assert false;
    }
  }

  /**
   * The 64-bit product and the 32-bit divisor of Wdt_getMs cannot overflow: the base
   * frequency is below 4.6 MHz + 1, any 32-bit millisecond count times it stays below 2^64,
   * and the divisor is at most 64 * 4 * 1000.
   */
  lemma ProductsFit(band: nat, div: nat, ms: nat)
    requires band < 16 && ValidDivider(div) && ms < Uint32Limit
    ensures FreqSel[band] * ms < Uint64Limit
    ensures 0 < div * PreDiv * SecUnit <= 256000
  {
    FreqSelBands();
    MulLeftMonotonic(ms, FreqSel[band], 4600000);
    MulLeftMonotonic(4600000, ms, Uint32Limit - 1);
    MulLeftMonotonic(PreDiv * SecUnit, div, 64);
  }

  /** A configuration without a guard time leaves the window fully open: WINDOW equals TC. */
  lemma NoGuardOpenWindow(c: WdtConfig)
    requires c.Valid() && c.guardMs == 0
    ensures WindowTicks(c) == TimeoutTicks(c)
  {
  }

  /** The window never exceeds the timeout, whatever the guard time. */
  lemma WindowWithinTimeout(c: WdtConfig)
    requires c.Valid()
    ensures WindowTicks(c) <= TimeoutTicks(c)
  {
    MsToTicksMonotonic(FreqSel[c.band], c.div, c.timeoutMs - c.guardMs, c.timeoutMs, CounterMax);
  }

  /**
   * Any timeout from 200 ms to 29 s is representable at every band and divider: the count
   * is positive and below the counter's maximum, so it is not clipped.
   */
  lemma TimeoutRangeRepresentable(band: nat, div: nat, ms: nat)
    requires 1 <= band < 16 && ValidDivider(div) && 200 <= ms <= 29000
    ensures 0 < MsToTicks(FreqSel[band], div, ms, CounterMax) < CounterMax
  {
    FreqSelBands();
    var f := FreqSel[band];
    var d := div * PreDiv * SecUnit;
    assert 8000 <= d <= 256000;
    MulLeftMonotonic(f, 200, ms);
    MulLeftMonotonic(200, 600000, f);
    assert 600000 * 200 <= f * ms;
    DivMonotonic(600000 * 200, f * ms, d);
    DivLowerDivisor(600000 * 200, d, 256000);
    MulLeftMonotonic(ms, f, 4600000);
    MulLeftMonotonic(4600000, ms, 29000);
    assert f * ms <= 4600000 * 29000;
    DivMonotonic(f * ms, 4600000 * 29000, d);
    DivLowerDivisor(4600000 * 29000, 8000, d);
  }

  /** Dividing by a larger divisor never gives more. */
  lemma DivLowerDivisor(x: nat, d: nat, d': nat)
    requires 0 < d <= d'
    ensures x / d' <= x / d
  {
    var q := x / d';
    MulLeftMonotonic(q, d, d');
    assert q * d <= x;
    if x / d < q {
      assert (x / d + 1) * d <= q * d by {
        MulLeftMonotonic(d, x / d + 1, q);
      }
    }
  }

  /**
   * The warning range depends on the clock: at the slowest (600 kHz / 64) up to 400 ms is
   * representable; at the fastest (4.6 MHz / 2) 1 ms is, and 2 ms is already clipped.
   */
  lemma WarnRange()
    ensures forall ms :: ms <= 400 ==> MsToTicks(FreqSel[1], 64, ms, WarnMax) < WarnMax
    ensures MsToTicks(FreqSel[15], 2, 1, WarnMax) == 575
    ensures MsToTicks(FreqSel[15], 2, 2, WarnMax) == WarnMax
  {
    forall ms | ms <= 400 ensures MsToTicks(FreqSel[1], 64, ms, WarnMax) < WarnMax {
      MsToTicksMonotonic(FreqSel[1], 64, ms, 400, WarnMax);
    }
  }

  /** The shipped settings: 9375 Hz watchdog clock, TC and WINDOW of 4687 ticks, WARNINT of 468. */
  lemma DefaultSettings()
    ensures DefaultWdt.Valid()
    ensures OscCtrlWord(DefaultWdt.band, DefaultWdt.div) == 0x3F
    ensures OscClock(FreqSel[DefaultWdt.band], DefaultWdt.div) == 9375
    ensures TimeoutTicks(DefaultWdt) == 4687
    ensures WindowTicks(DefaultWdt) == 4687
    ensures WarningTicks(DefaultWdt) == 468
  {
  }

  /** The fastest watchdog clock is 2.3 MHz; a 1000 s timeout at the slowest one is not clipped, 10000 s is. */
  lemma ClockExamples()
    ensures OscClock(FreqSel[15], 2) == 2300000
    ensures MsToTicks(FreqSel[1], 64, 1000000, CounterMax) == 2343750
    ensures MsToTicks(FreqSel[1], 64, 10000000, CounterMax) == CounterMax
  {
  }

  // ---------------------------------------------------------------------------
  // Order and effect of Wdt_ini, Wdt_clr and WDT_IRQHandler

  /** Wdt_ini configures, powers and clocks the oscillator before anything else. */
  lemma IniOscillatorFirst(c: WdtConfig)
    requires c.Valid()
    ensures Before(IniEvents(c), Assign(WdtOscCtrl), Assign(WdtMod))
    ensures Before(IniEvents(c), Lower(PdRunCfg), Assign(WdtMod))
    ensures Before(IniEvents(c), Raise(SysAhbClkCtrl), Assign(WdtTc))
  {
    var osc, rest := OscEvents(c), LoadEvents(c) + StartEvents(c) + [WriteCount(WdtWarnInt, WarningTicks(c))];
    assert IniEvents(c) == osc + rest;
    BeforeSplit(osc, rest, osc[0], rest[3]);
    BeforeSplit(osc, rest, osc[1], rest[3]);
    BeforeSplit(osc, rest, osc[2], rest[0]);
  }

  /** TC and WINDOW are loaded, and the interrupt enabled, before MOD starts the watchdog. */
  lemma IniLoadBeforeStart(c: WdtConfig)
    requires c.Valid()
    ensures Before(IniEvents(c), Assign(WdtTc), Assign(WdtMod))
    ensures Before(IniEvents(c), Assign(WdtWindow), Assign(WdtMod))
    ensures Before(IniEvents(c), IrqOn, Assign(WdtMod))
  {
    var first, rest := OscEvents(c) + LoadEvents(c), StartEvents(c) + [WriteCount(WdtWarnInt, WarningTicks(c))];
    assert IniEvents(c) == first + rest;
    BeforeSplit(first, rest, first[3], rest[0]);
    BeforeSplit(first, rest, first[4], rest[0]);
    BeforeSplit(first, rest, first[5], rest[0]);
  }

  /** The feed follows the MOD write, and WARNINT is written only after the feed has started the counter. */
  lemma IniFeedAfterStart(c: WdtConfig)
    requires c.Valid()
    ensures Before(IniEvents(c), Assign(WdtMod), Assign(WdtFeed))
    ensures Before(IniEvents(c), Assign(WdtFeed), Assign(WdtWarnInt))
  {
    var warn := [WriteCount(WdtWarnInt, WarningTicks(c))];
    var first, rest := OscEvents(c) + LoadEvents(c) + [Write(WdtMod, c.mode)], FeedEvents + warn;
    assert IniEvents(c) == first + rest;
    BeforeSplit(first, rest, first[6], rest[0]);
    assert IniEvents(c) == (first + FeedEvents) + warn;
    BeforeSplit(first + FeedEvents, warn, FeedEvents[0], warn[0]);
  }

  /** Wdt_ini feeds the watchdog. */
  lemma IniFeeds(c: WdtConfig)
    requires c.Valid()
    ensures Write(WdtFeed, FeedFirst) in IniEvents(c)
  {
    assert IniEvents(c)[7] == Write(WdtFeed, FeedFirst);
  }

  /** Wdt_ini never waits on the hardware. */
  lemma IniNoWaits(c: WdtConfig)
    requires c.Valid()
    ensures forall r :: !Has(IniEvents(c), Wait(r))
  {
  }

  /** After Wdt_ini WDTOSCCTRL holds the band and divider word. */
  lemma IniOscillatorSetting(c: WdtConfig, regs: map<Reg, Word>)
    requires c.Valid() && Total(regs)
    ensures Replay(regs, IniEvents(c))[WdtOscCtrl] == OscCtrlWord(c.band, c.div)
  {
    var osc, rest := OscEvents(c), LoadEvents(c) + StartEvents(c) + [WriteCount(WdtWarnInt, WarningTicks(c))];
    assert IniEvents(c) == [] + [osc[0]] + (osc[1..] + rest);
    ReplaySoleTouch(regs, [], osc[0], osc[1..] + rest, WdtOscCtrl);
  }

  /** After Wdt_ini the oscillator is powered: its power-down bit is cleared and no other bit changes. */
  lemma IniPowersOscillator(c: WdtConfig, regs: map<Reg, Word>)
    requires c.Valid() && Total(regs)
    ensures Replay(regs, IniEvents(c))[PdRunCfg] == Cleared(regs[PdRunCfg], WdtOscPd)
  {
    var osc, rest := OscEvents(c), LoadEvents(c) + StartEvents(c) + [WriteCount(WdtWarnInt, WarningTicks(c))];
    assert IniEvents(c) == [osc[0]] + [osc[1]] + ([osc[2]] + rest);
    ReplaySoleTouch(regs, [osc[0]], osc[1], [osc[2]] + rest, PdRunCfg);
  }

  /** After Wdt_ini the watchdog's bus clock is enabled and no other clock-enable bit changes. */
  lemma IniClocksWatchdog(c: WdtConfig, regs: map<Reg, Word>)
    requires c.Valid() && Total(regs)
    ensures Replay(regs, IniEvents(c))[SysAhbClkCtrl] == Raised(regs[SysAhbClkCtrl], AhbWwdt)
  {
    var osc, rest := OscEvents(c), LoadEvents(c) + StartEvents(c) + [WriteCount(WdtWarnInt, WarningTicks(c))];
    assert IniEvents(c) == osc[..2] + [osc[2]] + rest;
    ReplaySoleTouch(regs, osc[..2], osc[2], rest, SysAhbClkCtrl);
  }

  /** After Wdt_ini TC holds the converted timeout. */
  lemma IniLoadsTimeout(c: WdtConfig, regs: map<Reg, Word>)
    requires c.Valid() && Total(regs)
    ensures Replay(regs, IniEvents(c))[WdtTc] == ToWord(TimeoutTicks(c))
  {
    var osc, load, rest := OscEvents(c), LoadEvents(c), StartEvents(c) + [WriteCount(WdtWarnInt, WarningTicks(c))];
    assert IniEvents(c) == osc + [load[0]] + (load[1..] + rest);
    ReplaySoleTouch(regs, osc, load[0], load[1..] + rest, WdtTc);
  }

  /** After Wdt_ini WINDOW holds the converted window. */
  lemma IniLoadsWindow(c: WdtConfig, regs: map<Reg, Word>)
    requires c.Valid() && Total(regs)
    ensures Replay(regs, IniEvents(c))[WdtWindow] == ToWord(WindowTicks(c))
  {
    var osc, load, rest := OscEvents(c), LoadEvents(c), StartEvents(c) + [WriteCount(WdtWarnInt, WarningTicks(c))];
    assert IniEvents(c) == (osc + [load[0]]) + [load[1]] + ([load[2]] + rest);
    ReplaySoleTouch(regs, osc + [load[0]], load[1], [load[2]] + rest, WdtWindow);
  }

  /** After Wdt_ini MOD holds the configured mode. */
  lemma IniSetsMode(c: WdtConfig, regs: map<Reg, Word>)
    requires c.Valid() && Total(regs)
    ensures Replay(regs, IniEvents(c))[WdtMod] == c.mode
  {
    var first, warn := OscEvents(c) + LoadEvents(c), [WriteCount(WdtWarnInt, WarningTicks(c))];
    assert IniEvents(c) == first + [Write(WdtMod, c.mode)] + (FeedEvents + warn);
    ReplaySoleTouch(regs, first, Write(WdtMod, c.mode), FeedEvents + warn, WdtMod);
  }

  /** After Wdt_ini the last word written to FEED is the second word of the feed sequence. */
  lemma IniFeedsLast(c: WdtConfig, regs: map<Reg, Word>)
    requires c.Valid() && Total(regs)
    ensures Replay(regs, IniEvents(c))[WdtFeed] == FeedSecond
  {
    var first, warn := OscEvents(c) + LoadEvents(c) + [Write(WdtMod, c.mode), FeedEvents[0]], [WriteCount(WdtWarnInt, WarningTicks(c))];
    assert IniEvents(c) == first + [FeedEvents[1]] + warn;
    ReplayLastTouch(regs, first, FeedEvents[1], warn, WdtFeed);
  }

  /** After Wdt_ini WARNINT holds the converted warning time. */
  lemma IniSetsWarning(c: WdtConfig, regs: map<Reg, Word>)
    requires c.Valid() && Total(regs)
    ensures Replay(regs, IniEvents(c))[WdtWarnInt] == ToWord(WarningTicks(c))
  {
    var first, last := OscEvents(c) + LoadEvents(c) + StartEvents(c), WriteCount(WdtWarnInt, WarningTicks(c));
    assert IniEvents(c) == first + [last] + [];
    ReplaySoleTouch(regs, first, last, [], WdtWarnInt);
  }

  /** Wdt_ini changes no register besides the eight it writes. */
  lemma IniLeavesOthers(c: WdtConfig, regs: map<Reg, Word>, r: Reg)
    requires c.Valid() && Total(regs)
    requires r !in {WdtOscCtrl, PdRunCfg, SysAhbClkCtrl, WdtTc, WdtWindow, WdtMod, WdtFeed, WdtWarnInt}
    ensures Replay(regs, IniEvents(c))[r] == regs[r]
  {
    assert Untouched(IniEvents(c), r);
    ReplayUntouched(regs, IniEvents(c), r);
  }

  /** Wdt_clr leaves the second feed word in FEED and changes no other register. */
  lemma FeedWritten(regs: map<Reg, Word>, r: Reg)
    requires Total(regs)
    ensures Replay(regs, FeedEvents)[WdtFeed] == FeedSecond
    ensures r != WdtFeed ==> Replay(regs, FeedEvents)[r] == regs[r]
  {
    assert FeedEvents == [FeedEvents[0]] + [FeedEvents[1]] + [];
    ReplayLastTouch(regs, [FeedEvents[0]], FeedEvents[1], [], WdtFeed);
    if r != WdtFeed {
      assert Untouched(FeedEvents, r);
      ReplayUntouched(regs, FeedEvents, r);
    }
  }

  /** The interrupt handler leaves MOD with WDINT set and WDTOF cleared. */
  lemma WarnAcknowledged(regs: map<Reg, Word>)
    requires Total(regs)
    ensures Replay(regs, WarnEvents)[WdtMod] == AckWarning(regs[WdtMod])
  {
    var raise, lower := SetBits(WdtMod, WdInt), ClearBits(WdtMod, WdTof);
    assert WarnEvents == [] + [WarnHook] + [raise] + [lower];
    ReplaySnoc(regs, [], WarnHook);
    ReplaySnoc(regs, [] + [WarnHook], raise);
    ReplaySnoc(regs, [] + [WarnHook] + [raise], lower);
  }

  /** The interrupt handler changes no register besides MOD. */
  lemma WarnLeavesOthers(regs: map<Reg, Word>, r: Reg)
    requires Total(regs) && r != WdtMod
    ensures Replay(regs, WarnEvents)[r] == regs[r]
  {
    assert Untouched(WarnEvents, r);
    ReplayUntouched(regs, WarnEvents, r);
  }
}
