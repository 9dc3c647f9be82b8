/*
 * The system clock set-up of the LPC810 firmware (Sys_lib.c): Sys_iniLpc810 starts the
 * watchdog, selects the PLL input and the main clock source, optionally powers the
 * internal RC oscillator (IRC) down, and programs the bus clock divider; Sys_getMainClk and
 * Sys_getSysClk report the two frequencies it recorded.
 */
module Clock {
  import opened Hardware
  import opened Watchdog

  datatype Option<T> = None | Some(value: T)

  /** Frequencies of the internal RC oscillator and of the CLKIN pin, in Hz. */
  const IrcHz: nat := 12000000
  const ClkinHz: nat := 12000000

  /**
   * Both selectors keep their code in the two low bits; for the non-negative selector
   * values `x & 3` is `x % 4`.
   */
  const SelectorCodes: nat := 4

  // SYSPLLCLKSEL: PLL input selector codes.
  const PllClkIrc: nat := 0
  const PllClkSysOsc: nat := 1
  const PllClkClkin: nat := 3

  // MAINCLKSEL: main clock selector codes.
  const MainClkIrc: nat := 0
  const MainClkPllIn: nat := 1
  const MainClkWdtOsc: nat := 2
  const MainClkPllOut: nat := 3

  /** SYSPLLCTRL holds the multiplier less one. */
  const PllOffset: nat := 1
  /** Length of the no-op loop that lets the CLKIN pin settle. */
  const SysconWait: nat := 200

  /** The fastest main clock a valid configuration can produce: 12 MHz times 32. */
  const MaxMainHz: nat := 384000000

  /** The clock settings fixed at build time. */
  datatype Config = Config(
    mainClkSel: nat,       // MAIN_CLK_SEL
    pllClkSel: nat,        // SYS_PLL_CLK
    pllRate: nat,          // SYS_PLL_RATE, the PLL multiplier
    sysClkDiv: nat,        // SYS_CLK_DIV, the bus clock divider
    ircPowerDown: bool,    // IRC_PDWON: power the IRC down when nothing uses it
    wdt: WdtConfig)        // the watchdog settings Wdt_ini uses
  {
    predicate Valid()
    {
      && mainClkSel < Uint32Limit
      && pllClkSel < Uint32Limit
      && 1 <= pllRate <= 32
      && 1 <= sysClkDiv <= 255
      && wdt.Valid()
    }
  }

  /** The settings shipped in core.h: IRC as main clock and PLL input, multiplier and divider 1. */
  const DefaultConfig: Config := Config(MainClkIrc, PllClkIrc, 1, 1, true, DefaultWdt)

  // ---------------------------------------------------------------------------
  // What the configuration means

  /** The PLL is fed from the CLKIN pin; any other selector value leaves the IRC as its input. */
  predicate PllFromClkin(c: Config)
  {
    c.pllClkSel % SelectorCodes == PllClkClkin
  }

  /** The PLL's input frequency. */
  function PllSourceHz(c: Config): nat
  {
    if PllFromClkin(c) then ClkinHz else IrcHz
  }

  /** The main clock source: the two selector bits of MAIN_CLK_SEL. */
  function MainSource(c: Config): (src: nat)
    ensures src < SelectorCodes
  {
    c.mainClkSel % SelectorCodes
  }

  /** The main clock frequency each source gives. */
  function MainClockHz(c: Config): (hz: nat)
    requires c.Valid()
    ensures hz <= MaxMainHz < Uint32Limit
  {
    var src := MainSource(c);
    if src == MainClkIrc then IrcHz
    else if src == MainClkPllIn then PllSourceHz(c)
    else if src == MainClkPllOut then
      MulLeftMonotonic(PllSourceHz(c), c.pllRate, 32);
      PllSourceHz(c) * c.pllRate
    else
      FreqSelBands();
      OscClock(FreqSel[c.wdt.band], c.wdt.div)
  }

  /** The bus (system) clock: the main clock divided by SYS_CLK_DIV, rounded down. */
  function SystemClockHz(c: Config): nat
    requires c.Valid()
  {
    var main: nat := MainClockHz(c);
    main / c.sysClkDiv
  }

  /**
   * SystemCoreClock is the main clock divided by SYS_CLK_DIV with the remainder dropped;
   * it never exceeds the main clock.
   */
  lemma SystemClockRounding(c: Config)
    requires c.Valid()
    ensures SystemClockHz(c) * c.sysClkDiv <= MainClockHz(c) < (SystemClockHz(c) + 1) * c.sysClkDiv
    ensures SystemClockHz(c) <= MainClockHz(c)
  {
    var main, d := MainClockHz(c), c.sysClkDiv;
    assert SystemClockHz(c) == main / d;
    DivLowerDivisor(main, 1, d);
  }

  /** The IRC is still in use: it is the main clock, or it feeds the PLL that is. */
  predicate IrcNeeded(c: Config)
  {
    var src := MainSource(c);
    src == MainClkIrc || ((src == MainClkPllIn || src == MainClkPllOut) && !PllFromClkin(c))
  }

  /** The IRC is switched off at the end of the boot. */
  predicate IrcPoweredDown(c: Config)
  {
    c.ircPowerDown && !IrcNeeded(c)
  }

  // ---------------------------------------------------------------------------
  // Sys_iniLpc810's bus operations

  /** The SWM and IOCON blocks get their bus clock. */
  const GateEvent: Event := SetBits(SysAhbClkCtrl, AhbSwm | AhbIocon)

  /** When the PLL takes CLKIN: the pin loses its pull resistor, becomes CLKIN, and is given time to settle. */
  function ClkinEvents(c: Config): seq<Event>
  {
    if PllFromClkin(c) then
      [ClearBits(IoconPio0_1, IoconMode), ClearBits(SwmPinEnable0, SwmClkinDis), Settle(SysconWait)]
    else []
  }

  /** The PLL input is selected and the selection latched. */
  function PllSelectEvents(c: Config): seq<Event>
  {
    [ WriteCount(SysPllClkSel, c.pllClkSel),
      Write(SysPllClkUen, PllClkUpdate),
      Await(SysPllClkUen, PllClkUpdate, PllClkUpdate) ]
  }

  /** For the PLL output: the multiplier is set, the PLL powered, and its lock awaited. */
  function PllStartEvents(c: Config): seq<Event>
    requires c.Valid()
  {
    if MainSource(c) == MainClkPllOut then
      [ WriteCount(SysPllCtrl, c.pllRate - PllOffset),
        ClearBits(PdRunCfg, SysPllPd),
        Await(SysPllStat, PllStatLock, PllLocked) ]
    else []
  }

  /** The main clock is selected and the selection latched. */
  function MainSelectEvents(c: Config): seq<Event>
  {
    [ WriteCount(MainClkSel, c.mainClkSel),
      Write(MainClkUen, MainClkUpdate),
      Await(MainClkUen, MainClkUpdate, MainClkUpdate) ]
  }

  /** The IRC and its output are powered down when allowed and unused. */
  function PowerDownEvents(c: Config): seq<Event>
  {
    if IrcPoweredDown(c) then [SetBits(PdRunCfg, IrcOutPd | IrcPd)] else []
  }

  /** Everything Sys_iniLpc810 does after Wdt_ini. */
  function SysEvents(c: Config): seq<Event>
    requires c.Valid()
  {
    [GateEvent] + ClkinEvents(c) + PllSelectEvents(c) + PllStartEvents(c)
      + MainSelectEvents(c) + PowerDownEvents(c) + [WriteCount(SysAhbClkDiv, c.sysClkDiv)]
  }

  /** Sys_iniLpc810's bus operations: the watchdog set-up first, then the clock set-up. */
  function BootEvents(c: Config): seq<Event>
    requires c.Valid()
  {
    IniEvents(c.wdt) + SysEvents(c)
  }

  /** PDRUNCFG after the boot, from its value at the start. */
  function PowerAfterBoot(c: Config, v: Word): (r: Word)
    requires c.Valid()
    ensures r & WdtOscPd == 0
    ensures MainSource(c) == MainClkPllOut ==> r & SysPllPd == 0
    ensures MainSource(c) != MainClkPllOut ==> r & SysPllPd == v & SysPllPd
    ensures IrcPoweredDown(c) ==> r & (IrcOutPd | IrcPd) == IrcOutPd | IrcPd
    ensures !IrcPoweredDown(c) ==> r & (IrcOutPd | IrcPd) == v & (IrcOutPd | IrcPd)
    ensures r & !(WdtOscPd | SysPllPd | IrcOutPd | IrcPd) == v & !(WdtOscPd | SysPllPd | IrcOutPd | IrcPd)
  {
    PowerBits(v, MainSource(c) == MainClkPllOut, IrcPoweredDown(c))
  }

  /** PDRUNCFG with the watchdog oscillator powered, the PLL powered if `pllOn`, and the IRC powered down if `ircOff`. */
  function PowerBits(v: Word, pllOn: bool, ircOff: bool): (r: Word)
    ensures r & WdtOscPd == 0
    ensures pllOn ==> r & SysPllPd == 0
    ensures !pllOn ==> r & SysPllPd == v & SysPllPd
    ensures ircOff ==> r & (IrcOutPd | IrcPd) == IrcOutPd | IrcPd
    ensures !ircOff ==> r & (IrcOutPd | IrcPd) == v & (IrcOutPd | IrcPd)
    ensures r & !(WdtOscPd | SysPllPd | IrcOutPd | IrcPd) == v & !(WdtOscPd | SysPllPd | IrcOutPd | IrcPd)
  {
    var osc := Cleared(v, WdtOscPd);
    var pll := if pllOn then Cleared(osc, SysPllPd) else osc;
    if ircOff then Raised(pll, IrcOutPd | IrcPd) else pll
  }

  /** Sys_iniLpc810's stages, one after the other, make up the whole boot. */
  lemma TraceAssembly(t0: seq<Event>, t1: seq<Event>, t2: seq<Event>, t3: seq<Event>,
                      t4: seq<Event>, t5: seq<Event>, t6: seq<Event>, c: Config)
    requires c.Valid()
    requires t1 == t0 + IniEvents(c.wdt)
    requires t2 == t1 + [GateEvent]
    requires t3 == t2 + ClkinEvents(c) + PllSelectEvents(c)
    requires t4 == t3 + PllStartEvents(c)
    requires t5 == t4 + MainSelectEvents(c) + PowerDownEvents(c)
    requires t6 == t5 + [WriteCount(SysAhbClkDiv, c.sysClkDiv)]
    ensures t6 == t0 + BootEvents(c)
  {
  }

  // ---------------------------------------------------------------------------
  // The library state and its operations

  /** The clock library's state: Sys_mainClk and SystemCoreClock, zero until the boot. */
  class Sys {
    var mainClk: nat
    var coreClock: nat
    /** The configuration the last boot applied, if any. */
    ghost var booted: Option<Config>

    ghost predicate Valid()
      reads this
    {
      match booted
      case None => mainClk == 0 && coreClock == 0
      case Some(c) => c.Valid() && mainClk == MainClockHz(c) && coreClock == SystemClockHz(c) && coreClock <= mainClk
    }

    constructor ()
      ensures Valid() && booted == None
    {
      mainClk := 0;
      coreClock := 0;
      booted := None;
    }

    /**
     * Sys_iniLpc810: starts the watchdog, switches the clock tree to the configured
     * sources, powers the IRC down if nothing uses it, and records the resulting frequencies.
     */
    method IniLpc810(hw: Chip, wdt: Wdt, c: Config)
      requires hw.Valid() && c.Valid()
      modifies this, hw, wdt
      ensures hw.Valid() && hw.reset == old(hw.reset)
      ensures hw.trace == old(hw.trace) + BootEvents(c)
      ensures hw.Regs() == Replay(old(hw.Regs()), BootEvents(c))
      ensures wdt.freq == FreqSel[c.wdt.band] && wdt.div == c.wdt.div
      ensures Valid() && booted == Some(c)
      ensures mainClk == MainClockHz(c) && coreClock == SystemClockHz(c)
    {
      ghost var t0 := hw.trace;
      wdt.Ini(hw, c.wdt);
      ghost var t1 := hw.trace;
      hw.Perform(GateEvent);
      ghost var t2 := hw.trace;
      var pllirc, pllsrc := SelectPllInput(hw, c);
      ghost var t3 := hw.trace;
      var main, irc := SelectMainSource(hw, wdt, c, pllirc, pllsrc);
      mainClk := main;
      ghost var t4 := hw.trace;
      SwitchMainClock(hw, c, irc);
      ghost var t5 := hw.trace;
      hw.Perform(WriteCount(SysAhbClkDiv, c.sysClkDiv));
      assert mainClk / c.sysClkDiv == SystemClockHz(c);
      SystemClockRounding(c);
      coreClock := mainClk / c.sysClkDiv;
      booted := Some(c);
      TraceAssembly(t0, t1, t2, t3, t4, t5, hw.trace, c);
      ReplayAppend(hw.reset, t0, BootEvents(c));
    }

    /** Sys_getMainClk: the main clock frequency the boot recorded, or 0 before it. */
    function GetMainClk(): (hz: nat)
      requires Valid()
      reads this
      ensures booted.None? ==> hz == 0
      ensures booted.Some? ==> hz == MainClockHz(booted.value)
    {
      mainClk
    }

    /** Sys_getSysClk: the system clock frequency the boot recorded, or 0 before it. */
    function GetSysClk(): (hz: nat)
      requires Valid()
      reads this
      ensures booted.None? ==> hz == 0
      ensures booted.Some? ==> hz == SystemClockHz(booted.value)
      ensures hz <= GetMainClk()
    {
      coreClock
    }
  }

  /**
   * Sys_iniLpc810, PLL input: a CLKIN input first gets its pin configured and a settling
   * delay; then SYSPLLCLKSEL is written and latched. Returns whether the IRC feeds the PLL
   * and the PLL's input frequency.
   */
  method SelectPllInput(hw: Chip, c: Config) returns (pllirc: bool, pllsrc: nat)
    requires hw.Valid()
    modifies hw
    ensures hw.Valid() && hw.reset == old(hw.reset)
    ensures hw.trace == old(hw.trace) + ClkinEvents(c) + PllSelectEvents(c)
    ensures pllirc == !PllFromClkin(c) && pllsrc == PllSourceHz(c)
  {
    pllirc := true;
    pllsrc := IrcHz;
    ghost var t0 := hw.trace;
    if c.pllClkSel % SelectorCodes == PllClkClkin {
      hw.Perform(ClearBits(IoconPio0_1, IoconMode));
      hw.Perform(ClearBits(SwmPinEnable0, SwmClkinDis));
      hw.Perform(Settle(SysconWait));
      pllsrc := ClkinHz;
      pllirc := false;
    }
    assert hw.trace == t0 + ClkinEvents(c);
    hw.Perform(WriteCount(SysPllClkSel, c.pllClkSel));
    hw.Perform(Write(SysPllClkUen, PllClkUpdate));
    hw.Perform(Await(SysPllClkUen, PllClkUpdate, PllClkUpdate));
  }

  /**
   * Sys_iniLpc810, main clock source: for the PLL output the multiplier is programmed, the
   * PLL powered and its lock awaited. Returns the main clock frequency and whether the IRC
   * is still needed.
   */
  method SelectMainSource(hw: Chip, wdt: Wdt, c: Config, pllirc: bool, pllsrc: nat) returns (main: nat, irc: bool)
    requires hw.Valid() && c.Valid()
    requires wdt.freq == FreqSel[c.wdt.band] && wdt.div == c.wdt.div
    requires pllirc == !PllFromClkin(c) && pllsrc == PllSourceHz(c)
    modifies hw
    ensures hw.Valid() && hw.reset == old(hw.reset)
    ensures hw.trace == old(hw.trace) + PllStartEvents(c)
    ensures main == MainClockHz(c)
    ensures irc == IrcNeeded(c)
  {
    irc := true;
    main := 0;
    var src := c.mainClkSel % SelectorCodes;
    if src == MainClkIrc {
      main := IrcHz;
    } else if src == MainClkPllIn {
      main := pllsrc;
      if !pllirc {
        irc := false;
      }
    } else if src == MainClkPllOut {
      hw.Perform(WriteCount(SysPllCtrl, c.pllRate - PllOffset));
      hw.Perform(ClearBits(PdRunCfg, SysPllPd));
      hw.Perform(Await(SysPllStat, PllStatLock, PllLocked));
      main := pllsrc * c.pllRate;
      if !pllirc {
        irc := false;
      }
    } else if src == MainClkWdtOsc {
      main := wdt.GetOscClk();
      irc := false;
    } else {
      // Two selector bits leave no other value.
      assert false;
    }
  }

  /**
   * Sys_iniLpc810, switch-over: MAINCLKSEL is written and latched, then the IRC is powered
   * down if allowed and no longer needed.
   */
  method SwitchMainClock(hw: Chip, c: Config, irc: bool)
    requires hw.Valid() && irc == IrcNeeded(c)
    modifies hw
    ensures hw.Valid() && hw.reset == old(hw.reset)
    ensures hw.trace == old(hw.trace) + MainSelectEvents(c) + PowerDownEvents(c)
  {
    hw.Perform(WriteCount(MainClkSel, c.mainClkSel));
    hw.Perform(Write(MainClkUen, MainClkUpdate));
    hw.Perform(Await(MainClkUen, MainClkUpdate, MainClkUpdate));
    ghost var t0 := hw.trace;
    if c.ircPowerDown && !irc {
      hw.Perform(SetBits(PdRunCfg, IrcOutPd | IrcPd));
    }
    assert hw.trace == t0 + PowerDownEvents(c);
  }

  // ---------------------------------------------------------------------------
  // Frequencies

  /** The five example settings documented with the configuration symbols. */
  lemma DocumentedClocks()
    ensures DefaultConfig.Valid()
    ensures MainClockHz(DefaultConfig) == IrcHz && SystemClockHz(DefaultConfig) == IrcHz
    ensures !IrcPoweredDown(DefaultConfig)
    ensures MainClockHz(DefaultConfig.(mainClkSel := MainClkWdtOsc)) == 9375
    ensures IrcPoweredDown(DefaultConfig.(mainClkSel := MainClkWdtOsc))
  {
    DefaultSettings();
  }

  /** The PLL examples: the CLKIN input as it is, and twice the IRC or CLKIN. */
  lemma DocumentedPllClocks()
    ensures var c := DefaultConfig.(mainClkSel := MainClkPllIn, pllClkSel := PllClkClkin);
      MainClockHz(c) == ClkinHz && IrcPoweredDown(c)
    ensures var c := DefaultConfig.(mainClkSel := MainClkPllOut, pllRate := 2);
      MainClockHz(c) == 24000000 && !IrcPoweredDown(c)
    ensures var c := DefaultConfig.(mainClkSel := MainClkPllOut, pllClkSel := PllClkClkin, pllRate := 2);
      MainClockHz(c) == 24000000 && IrcPoweredDown(c)
  {
  }

  /**
   * Nothing holds the PLL output to the part's 30 MHz maximum: the largest multiplier the
   * settings allow gives 384 MHz from the IRC.
   */
  lemma PllLimitUnchecked()
    ensures var c := DefaultConfig.(mainClkSel := MainClkPllOut, pllRate := 32);
      c.Valid() && MainClockHz(c) == MaxMainHz && MaxMainHz > 30000000
  {
  }

  /**
   * The system-oscillator PLL input, absent on the LPC810, is taken for the IRC: the PLL
   * input frequency is the IRC's and the IRC stays powered.
   */
  lemma SysOscTakenForIrc(c: Config)
    requires c.Valid() && c.pllClkSel == PllClkSysOsc
    requires MainSource(c) == MainClkPllIn || MainSource(c) == MainClkPllOut
    ensures PllSourceHz(c) == IrcHz && IrcNeeded(c) && !IrcPoweredDown(c)
  {
  }

  // ---------------------------------------------------------------------------
  // Order of Sys_iniLpc810's bus operations

  /** The kinds of operation the conditional segments can hold, whichever way their condition goes. */
  predicate ClkinKind(op: Op)
  {
    op == Lower(IoconPio0_1) || op == Lower(SwmPinEnable0) || op == Delay
  }

  predicate PllStartKind(op: Op)
  {
    op == Assign(SysPllCtrl) || op == Lower(PdRunCfg) || op == Wait(SysPllStat)
  }

  predicate PowerDownKind(op: Op)
  {
    op == Raise(PdRunCfg)
  }

  lemma SegmentKinds(c: Config)
    requires c.Valid()
    ensures forall e :: e in ClkinEvents(c) ==> ClkinKind(OpOf(e))
    ensures forall e :: e in PllStartEvents(c) ==> PllStartKind(OpOf(e))
    ensures forall e :: e in PowerDownEvents(c) ==> PowerDownKind(OpOf(e))
  {
  }

  /**
   * Every busy-wait and the divider write come after Wdt_ini's feed, and so after MOD was
   * written with the configured mode (`SysKeepsMode` shows that MOD keeps it).
   */
  lemma BootWatchdogFirst(c: Config)
    requires c.Valid()
    ensures Before(BootEvents(c), Assign(WdtFeed), Wait(SysPllClkUen))
    ensures Before(BootEvents(c), Assign(WdtFeed), Wait(MainClkUen))
    ensures Before(BootEvents(c), Assign(WdtFeed), Assign(SysAhbClkDiv))
  {
    IniFeeds(c.wdt);
    IniNoWaits(c.wdt);
    SysNoFeed(c);
    var feed := Write(WdtFeed, FeedFirst);
    assert Before(BootEvents(c), Assign(WdtFeed), Wait(SysPllClkUen)) by {
      BeforeSplit(IniEvents(c.wdt), SysEvents(c), feed, PllSelectEvents(c)[2]);
    }
    assert Before(BootEvents(c), Assign(WdtFeed), Wait(MainClkUen)) by {
      BeforeSplit(IniEvents(c.wdt), SysEvents(c), feed, MainSelectEvents(c)[2]);
    }
    assert Before(BootEvents(c), Assign(WdtFeed), Assign(SysAhbClkDiv)) by {
      IniNoDivider(c.wdt);
      BeforeSplit(IniEvents(c.wdt), SysEvents(c), feed, WriteCount(SysAhbClkDiv, c.sysClkDiv));
    }
  }

  /** Wdt_ini leaves the bus clock divider alone. */
  lemma IniNoDivider(w: WdtConfig)
    requires w.Valid()
    ensures !Has(IniEvents(w), Assign(SysAhbClkDiv))
  {
  }

  /** For the PLL output, the lock wait also comes after Wdt_ini's feed. */
  lemma BootPllLockWatched(c: Config)
    requires c.Valid() && MainSource(c) == MainClkPllOut
    ensures Before(BootEvents(c), Assign(WdtFeed), Wait(SysPllStat))
  {
    IniFeeds(c.wdt);
    IniNoWaits(c.wdt);
    SysNoFeed(c);
    var pre := [GateEvent] + ClkinEvents(c) + PllSelectEvents(c);
    var post := MainSelectEvents(c) + PowerDownEvents(c) + [WriteCount(SysAhbClkDiv, c.sysClkDiv)];
    var lock := PllStartEvents(c)[2];
    assert SysEvents(c) == pre + PllStartEvents(c) + post;
    assert lock in SysEvents(c);
    BeforeSplit(IniEvents(c.wdt), SysEvents(c), Write(WdtFeed, FeedFirst), lock);
  }

  /**
   * MOD holds the configured mode at every point of the clock set-up after Wdt_ini: with
   * WDEN in that mode and a running oscillator, every later operation is watched.
   */
  lemma SysKeepsMode(c: Config, regs: map<Reg, Word>, k: nat)
    requires c.Valid() && Total(regs) && k <= |SysEvents(c)|
    ensures Replay(regs, IniEvents(c.wdt) + SysEvents(c)[..k])[WdtMod] == c.wdt.mode
  {
    var done := SysEvents(c)[..k];
    assert Untouched(done, WdtMod) by {
      SegmentKinds(c);
      assert Untouched(SysEvents(c), WdtMod);
      forall e | e in done ensures !Touches(e, WdtMod) {
        assert e in SysEvents(c);
      }
    }
    ReplayUntouchedTail(regs, IniEvents(c.wdt), done, WdtMod);
    IniSetsMode(c.wdt, regs);
  }

  /** Sys_iniLpc810 itself never feeds the watchdog. */
  lemma SysNoFeed(c: Config)
    requires c.Valid()
    ensures !Has(SysEvents(c), Assign(WdtFeed))
  {
    SegmentKinds(c);
  }

  /** Inside the latch segments: selector, then update, then the wait for the update. */
  lemma LatchOrder(c: Config)
    requires c.Valid()
    ensures Before(PllSelectEvents(c), Assign(SysPllClkSel), Assign(SysPllClkUen))
    ensures Before(PllSelectEvents(c), Assign(SysPllClkUen), Wait(SysPllClkUen))
    ensures Before(MainSelectEvents(c), Assign(MainClkSel), Assign(MainClkUen))
    ensures Before(MainSelectEvents(c), Assign(MainClkUen), Wait(MainClkUen))
  {
    var pll, main := PllSelectEvents(c), MainSelectEvents(c);
    assert pll[0] in pll && pll[1] in pll && pll[2] in pll;
    assert main[0] in main && main[1] in main && main[2] in main;
  }

  /** SYSPLLCLKSEL is written before it is latched through SYSPLLCLKUEN. */
  lemma SysPllSelectBeforeLatch(c: Config)
    requires c.Valid()
    ensures Before(SysEvents(c), Assign(SysPllClkSel), Assign(SysPllClkUen))
  {
    LatchOrder(c);
    var pre, sel := [GateEvent] + ClkinEvents(c), PllSelectEvents(c);
    var post := PllStartEvents(c) + MainSelectEvents(c) + PowerDownEvents(c) + [WriteCount(SysAhbClkDiv, c.sysClkDiv)];
    assert SysEvents(c) == pre + sel + post;
    SegmentKinds(c);
    BeforeEmbed(pre, sel, post, Assign(SysPllClkSel), Assign(SysPllClkUen));
  }

  /** SYSPLLCLKUEN is written before the wait for its update. */
  lemma SysPllLatchBeforeWait(c: Config)
    requires c.Valid()
    ensures Before(SysEvents(c), Assign(SysPllClkUen), Wait(SysPllClkUen))
  {
    LatchOrder(c);
    var pre, sel := [GateEvent] + ClkinEvents(c), PllSelectEvents(c);
    var post := PllStartEvents(c) + MainSelectEvents(c) + PowerDownEvents(c) + [WriteCount(SysAhbClkDiv, c.sysClkDiv)];
    assert SysEvents(c) == pre + sel + post;
    SegmentKinds(c);
    BeforeEmbed(pre, sel, post, Assign(SysPllClkUen), Wait(SysPllClkUen));
  }

  /** The PLL input is latched before the main clock selector is written. */
  lemma SysPllInputBeforeSwitch(c: Config)
    requires c.Valid()
    ensures Before(SysEvents(c), Wait(SysPllClkUen), Assign(MainClkSel))
  {
    var pre, sel := [GateEvent] + ClkinEvents(c), PllSelectEvents(c);
    var post := PllStartEvents(c) + MainSelectEvents(c) + PowerDownEvents(c) + [WriteCount(SysAhbClkDiv, c.sysClkDiv)];
    assert SysEvents(c) == (pre + sel) + post;
    SegmentKinds(c);
    BeforeSplit(pre + sel, post, sel[2], MainSelectEvents(c)[0]);
  }

  /** For the PLL output: the PLL input is latched before the multiplier is set. */
  lemma SysPllInputBeforeStart(c: Config)
    requires c.Valid() && MainSource(c) == MainClkPllOut
    ensures Before(SysEvents(c), Wait(SysPllClkUen), Assign(SysPllCtrl))
  {
    var pre, start := [GateEvent] + ClkinEvents(c) + PllSelectEvents(c), PllStartEvents(c);
    var post := MainSelectEvents(c) + PowerDownEvents(c) + [WriteCount(SysAhbClkDiv, c.sysClkDiv)];
    assert SysEvents(c) == pre + (start + post);
    SegmentKinds(c);
    BeforeSplit(pre, start + post, PllSelectEvents(c)[2], start[0]);
  }

  /** Inside the PLL start segment: multiplier and power-up come before the lock wait. */
  lemma PllStartInnerOrder(c: Config)
    requires c.Valid() && MainSource(c) == MainClkPllOut
    ensures Before(PllStartEvents(c), Assign(SysPllCtrl), Wait(SysPllStat))
    ensures Before(PllStartEvents(c), Lower(PdRunCfg), Wait(SysPllStat))
  {
    var start := PllStartEvents(c);
    assert start[0] in start && start[1] in start && start[2] in start;
  }

  /** For the PLL output: the multiplier is set before the lock wait. */
  lemma SysPllRateBeforeLock(c: Config)
    requires c.Valid() && MainSource(c) == MainClkPllOut
    ensures Before(SysEvents(c), Assign(SysPllCtrl), Wait(SysPllStat))
  {
    PllStartInnerOrder(c);
    var pre, start := [GateEvent] + ClkinEvents(c) + PllSelectEvents(c), PllStartEvents(c);
    var post := MainSelectEvents(c) + PowerDownEvents(c) + [WriteCount(SysAhbClkDiv, c.sysClkDiv)];
    assert SysEvents(c) == pre + start + post;
    SegmentKinds(c);
    BeforeEmbed(pre, start, post, Assign(SysPllCtrl), Wait(SysPllStat));
  }

  /** For the PLL output: the PLL is powered before the lock wait. */
  lemma SysPllPowerBeforeLock(c: Config)
    requires c.Valid() && MainSource(c) == MainClkPllOut
    ensures Before(SysEvents(c), Lower(PdRunCfg), Wait(SysPllStat))
  {
    PllStartInnerOrder(c);
    var pre, start := [GateEvent] + ClkinEvents(c) + PllSelectEvents(c), PllStartEvents(c);
    var post := MainSelectEvents(c) + PowerDownEvents(c) + [WriteCount(SysAhbClkDiv, c.sysClkDiv)];
    assert SysEvents(c) == pre + start + post;
    SegmentKinds(c);
    BeforeEmbed(pre, start, post, Lower(PdRunCfg), Wait(SysPllStat));
  }

  /** The PLL lock is awaited before the main clock switches to it. */
  lemma SysPllLockBeforeSwitch(c: Config)
    requires c.Valid() && MainSource(c) == MainClkPllOut
    ensures Before(SysEvents(c), Wait(SysPllStat), Assign(MainClkSel))
  {
    SegmentKinds(c);
    var pre := [GateEvent] + ClkinEvents(c) + PllSelectEvents(c) + PllStartEvents(c);
    var post := MainSelectEvents(c) + PowerDownEvents(c) + [WriteCount(SysAhbClkDiv, c.sysClkDiv)];
    assert SysEvents(c) == pre + post;
    BeforeSplit(pre, post, PllStartEvents(c)[2], post[0]);
  }

  /** MAINCLKSEL is written before it is latched through MAINCLKUEN. */
  lemma SysMainSelectBeforeLatch(c: Config)
    requires c.Valid()
    ensures Before(SysEvents(c), Assign(MainClkSel), Assign(MainClkUen))
  {
    LatchOrder(c);
    var pre, sel := [GateEvent] + ClkinEvents(c) + PllSelectEvents(c) + PllStartEvents(c), MainSelectEvents(c);
    var post := PowerDownEvents(c) + [WriteCount(SysAhbClkDiv, c.sysClkDiv)];
    assert SysEvents(c) == pre + sel + post;
    SegmentKinds(c);
    BeforeEmbed(pre, sel, post, Assign(MainClkSel), Assign(MainClkUen));
  }

  /** MAINCLKUEN is written before the wait for its update. */
  lemma SysMainLatchBeforeWait(c: Config)
    requires c.Valid()
    ensures Before(SysEvents(c), Assign(MainClkUen), Wait(MainClkUen))
  {
    LatchOrder(c);
    var pre, sel := [GateEvent] + ClkinEvents(c) + PllSelectEvents(c) + PllStartEvents(c), MainSelectEvents(c);
    var post := PowerDownEvents(c) + [WriteCount(SysAhbClkDiv, c.sysClkDiv)];
    assert SysEvents(c) == pre + sel + post;
    SegmentKinds(c);
    BeforeEmbed(pre, sel, post, Assign(MainClkUen), Wait(MainClkUen));
  }

  /** The bus clock divider is written after the main clock switch-over has been awaited. */
  lemma SysDividerAfterSwitch(c: Config)
    requires c.Valid()
    ensures Before(SysEvents(c), Wait(MainClkUen), Assign(SysAhbClkDiv))
  {
    var pre, sel := [GateEvent] + ClkinEvents(c) + PllSelectEvents(c) + PllStartEvents(c), MainSelectEvents(c);
    var post := PowerDownEvents(c) + [WriteCount(SysAhbClkDiv, c.sysClkDiv)];
    assert SysEvents(c) == (pre + sel) + post;
    SegmentKinds(c);
    BeforeSplit(pre + sel, post, sel[2], WriteCount(SysAhbClkDiv, c.sysClkDiv));
  }

  /** The IRC is powered down only after the main clock has switched away from it. */
  lemma SysPowerDownAfterSwitch(c: Config)
    requires c.Valid() && IrcPoweredDown(c)
    ensures Before(SysEvents(c), Wait(MainClkUen), Raise(PdRunCfg))
    ensures Before(SysEvents(c), Raise(PdRunCfg), Assign(SysAhbClkDiv))
  {
    SegmentKinds(c);
    var pre := [GateEvent] + ClkinEvents(c) + PllSelectEvents(c) + PllStartEvents(c);
    var sel, down, div := MainSelectEvents(c), PowerDownEvents(c), WriteCount(SysAhbClkDiv, c.sysClkDiv);
    assert Before(SysEvents(c), Wait(MainClkUen), Raise(PdRunCfg)) by {
      assert SysEvents(c) == (pre + sel) + (down + [div]);
      BeforeSplit(pre + sel, down + [div], sel[2], down[0]);
    }
    assert Before(SysEvents(c), Raise(PdRunCfg), Assign(SysAhbClkDiv)) by {
      assert SysEvents(c) == (pre + sel + down) + [div];
      BeforeSplit(pre + sel + down, [div], down[0], div);
    }
  }

  /** With CLKIN as PLL input, the SWM and IOCON clocks run before the pin is configured. */
  lemma SysClkinGatedFirst(c: Config)
    requires c.Valid() && PllFromClkin(c)
    ensures Before(SysEvents(c), Raise(SysAhbClkCtrl), Lower(IoconPio0_1))
  {
    var pins := ClkinEvents(c);
    var post := PllSelectEvents(c) + PllStartEvents(c) + MainSelectEvents(c) + PowerDownEvents(c)
      + [WriteCount(SysAhbClkDiv, c.sysClkDiv)];
    assert SysEvents(c) == [GateEvent] + (pins + post);
    SegmentKinds(c);
    BeforeSplit([GateEvent], pins + post, GateEvent, pins[0]);
  }

  /** With CLKIN as PLL input, the pin is switched to CLKIN before the PLL input is chosen. */
  lemma SysClkinPinFirst(c: Config)
    requires c.Valid() && PllFromClkin(c)
    ensures Before(SysEvents(c), Lower(SwmPinEnable0), Assign(SysPllClkSel))
  {
    var pins := ClkinEvents(c);
    var post := PllSelectEvents(c) + PllStartEvents(c) + MainSelectEvents(c) + PowerDownEvents(c)
      + [WriteCount(SysAhbClkDiv, c.sysClkDiv)];
    assert SysEvents(c) == ([GateEvent] + pins) + post;
    SegmentKinds(c);
    assert ClearBits(SwmPinEnable0, SwmClkinDis) in [GateEvent] + pins && WriteCount(SysPllClkSel, c.pllClkSel) in post;
    BeforeSplit([GateEvent] + pins, post, ClearBits(SwmPinEnable0, SwmClkinDis), WriteCount(SysPllClkSel, c.pllClkSel));
  }

  /** With CLKIN as PLL input, the pin settles before the PLL input is chosen. */
  lemma SysClkinSettledFirst(c: Config)
    requires c.Valid() && PllFromClkin(c)
    ensures Before(SysEvents(c), Delay, Assign(SysPllClkSel))
  {
    var pins := ClkinEvents(c);
    var post := PllSelectEvents(c) + PllStartEvents(c) + MainSelectEvents(c) + PowerDownEvents(c)
      + [WriteCount(SysAhbClkDiv, c.sysClkDiv)];
    assert SysEvents(c) == ([GateEvent] + pins) + post;
    SegmentKinds(c);
    var settle, select := Settle(SysconWait), WriteCount(SysPllClkSel, c.pllClkSel);
    assert ([GateEvent] + pins)[3] == settle && post[0] == select;
    assert settle in [GateEvent] + pins && OpOf(settle) == Delay;
    assert select in post && OpOf(select) == Assign(SysPllClkSel);
    BeforeAcross([GateEvent] + pins, post, Delay, Assign(SysPllClkSel));
  }

  /** The IRC power-down happens exactly when it is allowed and nothing uses the IRC. */
  lemma SysPowerDownIff(c: Config)
    requires c.Valid()
    ensures Has(SysEvents(c), Raise(PdRunCfg)) <==> IrcPoweredDown(c)
  {
    var pre := [GateEvent] + ClkinEvents(c) + PllSelectEvents(c) + PllStartEvents(c) + MainSelectEvents(c);
    var div := WriteCount(SysAhbClkDiv, c.sysClkDiv);
    assert SysEvents(c) == pre + PowerDownEvents(c) + [div];
    if IrcPoweredDown(c) {
      assert PowerDownEvents(c)[0] in SysEvents(c);
    }
  }

  /** The PLL is programmed exactly when its output is the main clock. */
  lemma SysPllStartIff(c: Config)
    requires c.Valid()
    ensures Has(SysEvents(c), Assign(SysPllCtrl)) <==> MainSource(c) == MainClkPllOut
  {
    var pre := [GateEvent] + ClkinEvents(c) + PllSelectEvents(c);
    var post := MainSelectEvents(c) + PowerDownEvents(c) + [WriteCount(SysAhbClkDiv, c.sysClkDiv)];
    assert SysEvents(c) == pre + PllStartEvents(c) + post;
    if MainSource(c) == MainClkPllOut {
      assert PllStartEvents(c)[0] in SysEvents(c);
    }
  }

  /** The CLKIN pin is switched on exactly when CLKIN feeds the PLL. */
  lemma SysClkinIff(c: Config)
    requires c.Valid()
    ensures Has(SysEvents(c), Lower(SwmPinEnable0)) <==> PllFromClkin(c)
  {
    var post := PllSelectEvents(c) + PllStartEvents(c) + MainSelectEvents(c) + PowerDownEvents(c)
      + [WriteCount(SysAhbClkDiv, c.sysClkDiv)];
    assert SysEvents(c) == [GateEvent] + ClkinEvents(c) + post;
    if PllFromClkin(c) {
      assert ClkinEvents(c)[1] in SysEvents(c);
    }
  }

  // ---------------------------------------------------------------------------
  // Register contents after Sys_iniLpc810, from any register contents at reset

  /** SYSAHBCLKDIV ends up holding the divider, truncated to the register's 32 bits. */
  lemma BootDivider(c: Config, regs: map<Reg, Word>)
    requires c.Valid() && Total(regs)
    ensures Replay(regs, BootEvents(c))[SysAhbClkDiv] == ToWord(c.sysClkDiv)
  {
    var div := WriteCount(SysAhbClkDiv, c.sysClkDiv);
    var pre := IniEvents(c.wdt) + [GateEvent] + ClkinEvents(c) + PllSelectEvents(c) + PllStartEvents(c)
      + MainSelectEvents(c) + PowerDownEvents(c);
    assert BootEvents(c) == pre + [div] + [];
    ReplayLastTouch(regs, pre, div, [], SysAhbClkDiv);
  }

  /** MAINCLKSEL ends up holding the main clock selector as given. */
  lemma BootMainSelector(c: Config, regs: map<Reg, Word>)
    requires c.Valid() && Total(regs)
    ensures Replay(regs, BootEvents(c))[MainClkSel] == ToWord(c.mainClkSel)
  {
    var sel := MainSelectEvents(c);
    var pre := IniEvents(c.wdt) + [GateEvent] + ClkinEvents(c) + PllSelectEvents(c) + PllStartEvents(c);
    var post := sel[1..] + PowerDownEvents(c) + [WriteCount(SysAhbClkDiv, c.sysClkDiv)];
    assert BootEvents(c) == pre + [sel[0]] + post;
    ReplayLastTouch(regs, pre, sel[0], post, MainClkSel);
  }

  /** SYSPLLCLKSEL ends up holding the PLL input selector as given. */
  lemma BootPllSelector(c: Config, regs: map<Reg, Word>)
    requires c.Valid() && Total(regs)
    ensures Replay(regs, BootEvents(c))[SysPllClkSel] == ToWord(c.pllClkSel)
  {
    var sel := PllSelectEvents(c);
    var pre := IniEvents(c.wdt) + [GateEvent] + ClkinEvents(c);
    var post := sel[1..] + PllStartEvents(c) + MainSelectEvents(c) + PowerDownEvents(c)
      + [WriteCount(SysAhbClkDiv, c.sysClkDiv)];
    assert BootEvents(c) == pre + [sel[0]] + post;
    ReplayLastTouch(regs, pre, sel[0], post, SysPllClkSel);
  }

  /** The CLKIN segment clears MODE in PIO0_1 and CLKIN_DIS in PINENABLE0 when CLKIN feeds the PLL, and does nothing otherwise. */
  lemma ClkinEffect(c: Config, regs: map<Reg, Word>)
    requires Total(regs)
    ensures Replay(regs, ClkinEvents(c))[IoconPio0_1]
      == if PllFromClkin(c) then Cleared(regs[IoconPio0_1], IoconMode) else regs[IoconPio0_1]
    ensures Replay(regs, ClkinEvents(c))[SwmPinEnable0]
      == if PllFromClkin(c) then Cleared(regs[SwmPinEnable0], SwmClkinDis) else regs[SwmPinEnable0]
  {
    if PllFromClkin(c) {
      var pull, pin, settle := ClearBits(IoconPio0_1, IoconMode), ClearBits(SwmPinEnable0, SwmClkinDis), Settle(SysconWait);
      assert ClkinEvents(c) == [] + [pull] + [pin, settle];
      ReplaySoleTouch(regs, [], pull, [pin, settle], IoconPio0_1);
      assert ClkinEvents(c) == [pull] + [pin] + [settle];
      ReplaySoleTouch(regs, [pull], pin, [settle], SwmPinEnable0);
    }
  }

  /** The boot cut around its CLKIN segment. */
  lemma ClkinSplit(c: Config)
    requires c.Valid()
    ensures BootEvents(c) == IniEvents(c.wdt) + [GateEvent] + ClkinEvents(c)
      + (PllSelectEvents(c) + PllStartEvents(c) + MainSelectEvents(c) + PowerDownEvents(c) + [WriteCount(SysAhbClkDiv, c.sysClkDiv)])
  {
  }

  /** Nothing before the CLKIN segment touches the two pin registers. */
  lemma PinsBeforeClkin(c: Config)
    requires c.Valid()
    ensures Untouched(IniEvents(c.wdt) + [GateEvent], IoconPio0_1)
    ensures Untouched(IniEvents(c.wdt) + [GateEvent], SwmPinEnable0)
  {
  }

  /** Nothing after the CLKIN segment touches the two pin registers. */
  lemma PinsAfterClkin(c: Config)
    requires c.Valid()
    ensures Untouched(PllSelectEvents(c) + PllStartEvents(c) + MainSelectEvents(c) + PowerDownEvents(c)
      + [WriteCount(SysAhbClkDiv, c.sysClkDiv)], IoconPio0_1)
    ensures Untouched(PllSelectEvents(c) + PllStartEvents(c) + MainSelectEvents(c) + PowerDownEvents(c)
      + [WriteCount(SysAhbClkDiv, c.sysClkDiv)], SwmPinEnable0)
  {
    SegmentKinds(c);
  }

  /** PIO0_1 loses its pull resistor (MODE cleared, other bits kept) exactly when CLKIN feeds the PLL. */
  lemma BootClkinPull(c: Config, regs: map<Reg, Word>)
    requires c.Valid() && Total(regs)
    ensures PllFromClkin(c) ==> Replay(regs, BootEvents(c))[IoconPio0_1] == Cleared(regs[IoconPio0_1], IoconMode)
    ensures !PllFromClkin(c) ==> Replay(regs, BootEvents(c))[IoconPio0_1] == regs[IoconPio0_1]
  {
    var pre := IniEvents(c.wdt) + [GateEvent];
    var post := PllSelectEvents(c) + PllStartEvents(c) + MainSelectEvents(c) + PowerDownEvents(c)
      + [WriteCount(SysAhbClkDiv, c.sysClkDiv)];
    ClkinSplit(c);
    PinsBeforeClkin(c);
    PinsAfterClkin(c);
    ReplaySegment(regs, pre, ClkinEvents(c), post, IoconPio0_1);
    ReplayUntouched(regs, pre, IoconPio0_1);
    ClkinEffect(c, Replay(regs, pre));
  }

  /** The CLKIN function is enabled on its pin (CLKIN_DIS cleared, other bits kept) exactly when CLKIN feeds the PLL. */
  lemma BootClkinPin(c: Config, regs: map<Reg, Word>)
    requires c.Valid() && Total(regs)
    ensures PllFromClkin(c) ==> Replay(regs, BootEvents(c))[SwmPinEnable0] == Cleared(regs[SwmPinEnable0], SwmClkinDis)
    ensures !PllFromClkin(c) ==> Replay(regs, BootEvents(c))[SwmPinEnable0] == regs[SwmPinEnable0]
  {
    var pre := IniEvents(c.wdt) + [GateEvent];
    var post := PllSelectEvents(c) + PllStartEvents(c) + MainSelectEvents(c) + PowerDownEvents(c)
      + [WriteCount(SysAhbClkDiv, c.sysClkDiv)];
    ClkinSplit(c);
    PinsBeforeClkin(c);
    PinsAfterClkin(c);
    ReplaySegment(regs, pre, ClkinEvents(c), post, SwmPinEnable0);
    ReplayUntouched(regs, pre, SwmPinEnable0);
    ClkinEffect(c, Replay(regs, pre));
  }

  /** A latch segment leaves its update register reading as the update request. */
  lemma LatchEffect(c: Config, regs: map<Reg, Word>)
    requires Total(regs)
    ensures Replay(regs, PllSelectEvents(c))[SysPllClkUen] == PllClkUpdate
    ensures Replay(regs, MainSelectEvents(c))[MainClkUen] == MainClkUpdate
  {
    var pll := PllSelectEvents(c);
    assert pll == [pll[0], pll[1]] + [pll[2]] + [];
    ReplayLastTouch(regs, [pll[0], pll[1]], pll[2], [], SysPllClkUen);
    assert [pll[0], pll[1]] == [pll[0]] + [pll[1]];
    ReplaySnoc(regs, [pll[0]], pll[1]);
    var main := MainSelectEvents(c);
    assert main == [main[0], main[1]] + [main[2]] + [];
    ReplayLastTouch(regs, [main[0], main[1]], main[2], [], MainClkUen);
    assert [main[0], main[1]] == [main[0]] + [main[1]];
    ReplaySnoc(regs, [main[0]], main[1]);
  }

  /** Once the PLL input update has been awaited, SYSPLLCLKUEN reads as the update request. */
  lemma BootPllLatched(c: Config, regs: map<Reg, Word>)
    requires c.Valid() && Total(regs)
    ensures Replay(regs, BootEvents(c))[SysPllClkUen] == PllClkUpdate
  {
    var pre := IniEvents(c.wdt) + [GateEvent] + ClkinEvents(c);
    var post := PllStartEvents(c) + MainSelectEvents(c) + PowerDownEvents(c) + [WriteCount(SysAhbClkDiv, c.sysClkDiv)];
    assert Replay(regs, BootEvents(c))[SysPllClkUen] == Replay(Replay(regs, pre), PllSelectEvents(c))[SysPllClkUen] by {
      assert BootEvents(c) == pre + PllSelectEvents(c) + post;
      assert Untouched(post, SysPllClkUen) by {
        SegmentKinds(c);
      }
      ReplaySegment(regs, pre, PllSelectEvents(c), post, SysPllClkUen);
    }
    LatchEffect(c, Replay(regs, pre));
  }

  /** Once the main clock update has been awaited, MAINCLKUEN reads as the update request. */
  lemma BootMainLatched(c: Config, regs: map<Reg, Word>)
    requires c.Valid() && Total(regs)
    ensures Replay(regs, BootEvents(c))[MainClkUen] == MainClkUpdate
  {
    var pre := IniEvents(c.wdt) + [GateEvent] + ClkinEvents(c) + PllSelectEvents(c) + PllStartEvents(c);
    var post := PowerDownEvents(c) + [WriteCount(SysAhbClkDiv, c.sysClkDiv)];
    assert Replay(regs, BootEvents(c))[MainClkUen] == Replay(Replay(regs, pre), MainSelectEvents(c))[MainClkUen] by {
      assert BootEvents(c) == pre + MainSelectEvents(c) + post;
      assert Untouched(post, MainClkUen) by {
        SegmentKinds(c);
      }
      ReplaySegment(regs, pre, MainSelectEvents(c), post, MainClkUen);
    }
    LatchEffect(c, Replay(regs, pre));
  }

  /** The PLL start-up's lock wait leaves SYSPLLSTAT reading as locked, only for the PLL output. */
  lemma PllStartLock(c: Config, regs: map<Reg, Word>)
    requires c.Valid() && Total(regs)
    ensures MainSource(c) == MainClkPllOut ==>
      Replay(regs, PllStartEvents(c))[SysPllStat] == Acknowledge(regs[SysPllStat], PllStatLock, PllLocked)
    ensures MainSource(c) != MainClkPllOut ==> Replay(regs, PllStartEvents(c))[SysPllStat] == regs[SysPllStat]
  {
    var start := PllStartEvents(c);
    if MainSource(c) == MainClkPllOut {
      assert start == [start[0], start[1]] + [start[2]] + [];
      ReplaySoleTouch(regs, [start[0], start[1]], start[2], [], SysPllStat);
    }
  }

  /** SYSPLLSTAT is touched only inside the PLL start-up segment of the boot. */
  lemma BootAroundPllStart(c: Config, regs: map<Reg, Word>)
    requires c.Valid() && Total(regs)
    ensures Replay(regs, IniEvents(c.wdt) + [GateEvent] + ClkinEvents(c) + PllSelectEvents(c))[SysPllStat] == regs[SysPllStat]
    ensures Replay(regs, BootEvents(c))[SysPllStat]
      == Replay(Replay(regs, IniEvents(c.wdt) + [GateEvent] + ClkinEvents(c) + PllSelectEvents(c)), PllStartEvents(c))[SysPllStat]
  {
    var pre := IniEvents(c.wdt) + [GateEvent] + ClkinEvents(c) + PllSelectEvents(c);
    var post := MainSelectEvents(c) + PowerDownEvents(c) + [WriteCount(SysAhbClkDiv, c.sysClkDiv)];
    SegmentKinds(c);
    assert Replay(regs, pre)[SysPllStat] == regs[SysPllStat] by {
      assert Untouched(pre, SysPllStat);
      ReplayUntouched(regs, pre, SysPllStat);
    }
    assert BootEvents(c) == pre + PllStartEvents(c) + post;
    assert Untouched(post, SysPllStat);
    ReplaySegment(regs, pre, PllStartEvents(c), post, SysPllStat);
  }

  /**
   * For the PLL output the lock wait leaves SYSPLLSTAT reading as locked, its other bits
   * as at reset; for every other source SYSPLLSTAT is never read.
   */
  lemma BootPllLocked(c: Config, regs: map<Reg, Word>)
    requires c.Valid() && Total(regs)
    ensures MainSource(c) == MainClkPllOut ==>
      Replay(regs, BootEvents(c))[SysPllStat] == Acknowledge(regs[SysPllStat], PllStatLock, PllLocked)
    ensures MainSource(c) != MainClkPllOut ==> Replay(regs, BootEvents(c))[SysPllStat] == regs[SysPllStat]
  {
    BootAroundPllStart(c, regs);
    PllStartLock(c, Replay(regs, IniEvents(c.wdt) + [GateEvent] + ClkinEvents(c) + PllSelectEvents(c)));
  }

  /** Wdt_ini touches none of the clock registers Sys_iniLpc810 programs after it. */
  lemma IniLeavesClockRegisters(w: WdtConfig)
    requires w.Valid()
    ensures Untouched(IniEvents(w), SysPllCtrl)
  {
  }

  /** PLL start-up stores the multiplier minus one in SYSPLLCTRL. */
  lemma PllStartRate(c: Config, regs: map<Reg, Word>)
    requires c.Valid() && Total(regs) && MainSource(c) == MainClkPllOut
    ensures Replay(regs, PllStartEvents(c))[SysPllCtrl] == ToWord(c.pllRate - PllOffset)
  {
    var rate := WriteCount(SysPllCtrl, c.pllRate - PllOffset);
    var rest := [ClearBits(PdRunCfg, SysPllPd), Await(SysPllStat, PllStatLock, PllLocked)];
    assert PllStartEvents(c) == [] + [rate] + rest;
    ReplaySoleTouch(regs, [], rate, rest, SysPllCtrl);
    StepStoresCount(regs, SysPllCtrl, c.pllRate - PllOffset);
  }

  /** For the PLL output, Sys_iniLpc810 leaves the multiplier minus one in SYSPLLCTRL. */
  lemma SysPllRateSet(c: Config, regs: map<Reg, Word>)
    requires c.Valid() && Total(regs) && MainSource(c) == MainClkPllOut
    ensures Replay(regs, SysEvents(c))[SysPllCtrl] == ToWord(c.pllRate - PllOffset)
  {
    var pre := [GateEvent] + ClkinEvents(c) + PllSelectEvents(c);
    var post := MainSelectEvents(c) + PowerDownEvents(c) + [WriteCount(SysAhbClkDiv, c.sysClkDiv)];
    var start := PllStartEvents(c);
    assert Replay(regs, SysEvents(c))[SysPllCtrl] == Replay(regs, pre + start)[SysPllCtrl] by {
      assert SysEvents(c) == (pre + start) + post;
      assert Untouched(post, SysPllCtrl);
      ReplayUntouchedTail(regs, pre + start, post, SysPllCtrl);
    }
    assert Replay(regs, pre + start) == Replay(Replay(regs, pre), start) by {
      ReplayAppend(regs, pre, start);
    }
    PllStartRate(c, Replay(regs, pre));
  }

  /** For every other main clock source, Sys_iniLpc810 leaves SYSPLLCTRL alone. */
  lemma SysPllRateKept(c: Config, regs: map<Reg, Word>)
    requires c.Valid() && Total(regs) && MainSource(c) != MainClkPllOut
    ensures Replay(regs, SysEvents(c))[SysPllCtrl] == regs[SysPllCtrl]
  {
    var pre := [GateEvent] + ClkinEvents(c) + PllSelectEvents(c);
    var post := MainSelectEvents(c) + PowerDownEvents(c) + [WriteCount(SysAhbClkDiv, c.sysClkDiv)];
    assert SysEvents(c) == pre + post;
    assert Untouched(pre + post, SysPllCtrl);
    ReplayUntouched(regs, pre + post, SysPllCtrl);
  }

  /** SYSPLLCTRL holds the multiplier minus one when the PLL output is the main clock, and is left alone otherwise. */
  lemma BootPllRate(c: Config, regs: map<Reg, Word>)
    requires c.Valid() && Total(regs)
    ensures MainSource(c) == MainClkPllOut ==> Replay(regs, BootEvents(c))[SysPllCtrl] == ToWord(c.pllRate - PllOffset)
    ensures MainSource(c) != MainClkPllOut ==> Replay(regs, BootEvents(c))[SysPllCtrl] == regs[SysPllCtrl]
  {
    ReplayAppend(regs, IniEvents(c.wdt), SysEvents(c));
    IniLeavesClockRegisters(c.wdt);
    ReplayUntouched(regs, IniEvents(c.wdt), SysPllCtrl);
    if MainSource(c) == MainClkPllOut {
      SysPllRateSet(c, Replay(regs, IniEvents(c.wdt)));
    } else {
      SysPllRateKept(c, Replay(regs, IniEvents(c.wdt)));
    }
  }

  /** SYSAHBCLKCTRL keeps its reset bits and gains the watchdog, SWM and IOCON clocks. */
  lemma BootBusClocks(c: Config, regs: map<Reg, Word>)
    requires c.Valid() && Total(regs)
    ensures Replay(regs, BootEvents(c))[SysAhbClkCtrl] == Raised(Raised(regs[SysAhbClkCtrl], AhbWwdt), AhbSwm | AhbIocon)
  {
    var rest := ClkinEvents(c) + PllSelectEvents(c) + PllStartEvents(c) + MainSelectEvents(c) + PowerDownEvents(c)
      + [WriteCount(SysAhbClkDiv, c.sysClkDiv)];
    assert BootEvents(c) == IniEvents(c.wdt) + [GateEvent] + rest;
    ReplayLastTouch(regs, IniEvents(c.wdt), GateEvent, rest, SysAhbClkCtrl);
    IniClocksWatchdog(c.wdt, regs);
  }

  /** PLL start-up clears the PLL power-down bit, and only for the PLL output. */
  lemma PllStartPower(c: Config, regs: map<Reg, Word>)
    requires c.Valid() && Total(regs)
    ensures MainSource(c) == MainClkPllOut ==> Replay(regs, PllStartEvents(c))[PdRunCfg] == Cleared(regs[PdRunCfg], SysPllPd)
    ensures MainSource(c) != MainClkPllOut ==> Replay(regs, PllStartEvents(c))[PdRunCfg] == regs[PdRunCfg]
  {
    var start := PllStartEvents(c);
    if MainSource(c) == MainClkPllOut {
      assert start == [start[0]] + [start[1]] + [start[2]];
      ReplaySoleTouch(regs, [start[0]], start[1], [start[2]], PdRunCfg);
    }
  }

  /** The switch-over and the power-down stage raise the IRC power-down bits exactly when the IRC is powered down. */
  lemma SwitchPower(c: Config, regs: map<Reg, Word>)
    requires c.Valid() && Total(regs)
    ensures IrcPoweredDown(c) ==>
      Replay(regs, MainSelectEvents(c) + PowerDownEvents(c) + [WriteCount(SysAhbClkDiv, c.sysClkDiv)])[PdRunCfg]
        == Raised(regs[PdRunCfg], IrcOutPd | IrcPd)
    ensures !IrcPoweredDown(c) ==>
      Replay(regs, MainSelectEvents(c) + PowerDownEvents(c) + [WriteCount(SysAhbClkDiv, c.sysClkDiv)])[PdRunCfg]
        == regs[PdRunCfg]
  {
    var sel, div := MainSelectEvents(c), [WriteCount(SysAhbClkDiv, c.sysClkDiv)];
    if IrcPoweredDown(c) {
      var down := PowerDownEvents(c)[0];
      assert sel + PowerDownEvents(c) + div == sel + [down] + div;
      ReplaySoleTouch(regs, sel, down, div, PdRunCfg);
    } else {
      assert sel + PowerDownEvents(c) + div == sel + div;
      ReplayUntouched(regs, sel + div, PdRunCfg);
    }
  }

  /** Within Sys_iniLpc810's own operations, PDRUNCFG changes only through the PLL start-up and the IRC power-down. */
  lemma SysPower(c: Config, regs: map<Reg, Word>)
    requires c.Valid() && Total(regs)
    ensures Replay(regs, SysEvents(c))[PdRunCfg] ==
      var pll := if MainSource(c) == MainClkPllOut then Cleared(regs[PdRunCfg], SysPllPd) else regs[PdRunCfg];
      if IrcPoweredDown(c) then Raised(pll, IrcOutPd | IrcPd) else pll
  {
    var pre := [GateEvent] + ClkinEvents(c) + PllSelectEvents(c);
    var start := PllStartEvents(c);
    var post := MainSelectEvents(c) + PowerDownEvents(c) + [WriteCount(SysAhbClkDiv, c.sysClkDiv)];
    var r1, r2 := Replay(regs, pre), Replay(regs, pre + start);
    assert r1[PdRunCfg] == regs[PdRunCfg] by {
      ReplayUntouched(regs, pre, PdRunCfg);
    }
    assert r2 == Replay(r1, start) by {
      ReplayAppend(regs, pre, start);
    }
    assert Replay(regs, SysEvents(c)) == Replay(r2, post) by {
      assert SysEvents(c) == pre + start + post;
      ReplayAppend(regs, pre + start, post);
    }
    PllStartPower(c, r1);
    SwitchPower(c, r2);
  }

  /** PDRUNCFG after the boot: watchdog oscillator on, PLL on when used, IRC off when allowed and unused, nothing else changed. */
  lemma BootPower(c: Config, regs: map<Reg, Word>)
    requires c.Valid() && Total(regs)
    ensures Replay(regs, BootEvents(c))[PdRunCfg] == PowerAfterBoot(c, regs[PdRunCfg])
  {
    var afterIni := Replay(regs, IniEvents(c.wdt));
    assert afterIni[PdRunCfg] == Cleared(regs[PdRunCfg], WdtOscPd) by {
      IniPowersOscillator(c.wdt, regs);
    }
    assert Replay(regs, BootEvents(c))[PdRunCfg] == Replay(afterIni, SysEvents(c))[PdRunCfg] by {
      ReplayAppend(regs, IniEvents(c.wdt), SysEvents(c));
    }
    SysPower(c, afterIni);
  }

  /** The clock set-up after Wdt_ini leaves the watchdog's own registers as Wdt_ini set them. */
  lemma BootKeepsWatchdog(c: Config, regs: map<Reg, Word>, r: Reg)
    requires c.Valid() && Total(regs)
    requires r in {WdtOscCtrl, WdtMod, WdtTc, WdtFeed, WdtWindow, WdtWarnInt}
    ensures Replay(regs, BootEvents(c))[r] == Replay(regs, IniEvents(c.wdt))[r]
  {
    SegmentKinds(c);
    assert Untouched(SysEvents(c), r);
    ReplayUntouchedTail(regs, IniEvents(c.wdt), SysEvents(c), r);
  }
}
