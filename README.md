# LPC810 clock and watchdog start-up, in Dafny

This project models the clock start-up and the windowed watchdog of the lpc8xxBasic
firmware for the NXP LPC810:

- `src/Wdt_lib.c` — the watchdog library. It packs the oscillator control word, converts
  milliseconds to watchdog ticks, and programs the watchdog unit (`Wdt_ini`). It also has
  the feed (`Wdt_clr`) and the warning-interrupt handler with its overridable hook.
- `src/Sys_lib.c` — the system clock start-up, `Sys_iniLpc810`. It starts the watchdog,
  selects the PLL input and the main clock source, and powers the internal RC oscillator
  (IRC) down when nothing uses it. Then it programs the bus clock divider and records the
  main and system clock frequencies for `Sys_getMainClk` and `Sys_getSysClk`.

The project has three modules:

- `Hardware` (`hardware.dfy`) holds the registers the two libraries touch, and a `Chip`
  class. A `Chip` keeps the register values at reset and an append-only trace of bus
  operations, in the form the C code performs them:
  - a plain store;
  - `|=`;
  - `&= ~`;
  - a busy-wait on a status field;
  - the NVIC enable;
  - the settling loop;
  - the hook call.

  `Regs()` replays the trace over the reset values. `Before` states that every operation
  of one kind comes before every operation of another kind.
- `Watchdog` (`watchdog.dfy`) models `Wdt_lib.c`. The library's two statics (`Wdt_freq`,
  `Wdt_div`) are the fields of class `Wdt`.
- `Clock` (`clock.dfy`) models `Sys_lib.c`. `Sys_mainClk` and `SystemCoreClock` are the
  fields of class `Sys`. The build-time symbols of `inc/core.h` are a `Config` value.

Each operation that writes registers is a method. The method states the exact bus
operations it performs, as a function of its inputs. `Wdt.Ini`, `IrqHandler` and
`Sys.IniLpc810` also state the register file they leave. For `Clr`, the three stage methods
of the start-up and `Chip.Perform`, the register file follows from `Regs()` replaying the
trace. Lemmas then state:

- the order of those operations (the watchdog runs first, selectors are written before
  they are latched, latches are awaited before anything depends on them);
- the value each of the seventeen registers holds afterwards, for any register contents
  at reset;
- the frequencies the start-up records.

## Model

| member | source | states |
|---|---|---|
| Watchdog.OscCtrlWord | src/Wdt_lib.c:162 | The WDTOSCCTRL word decodes back to the same frequency band (bits 5..8) and the same divider (bits 0..4), and has no bit above bit 8 |
| Watchdog.Wdt.CalcOscCtrl | src/Wdt_lib.c:130-163 | Records the band's base frequency and the divider in the library state, and returns the packed WDTOSCCTRL word |
| Watchdog.FreqSelBands | src/Wdt_lib.c:141-158 | The table has 16 bands; band 0 is 0 Hz; the others lie between 600 kHz and 4.6 MHz and rise strictly |
| Watchdog.MsToTicks | src/Wdt_lib.c:180-190 | The tick count never exceeds the given maximum |
| Watchdog.MsToTicksMeaning | src/Wdt_lib.c:188-189 | Below saturation the count is exactly the number of whole prescaled ticks (freq / (div·4·1000) per ms) in the interval; a saturated count means at least `max` whole ticks fit |
| Watchdog.MsToTicksZero | src/Wdt_lib.c:188-189 | Zero milliseconds give zero ticks, for any clock, divider and maximum |
| Watchdog.MsToTicksMonotonic | src/Wdt_lib.c:188-189 | A longer interval never gives fewer ticks |
| Watchdog.ProductsFit | src/Wdt_lib.c:188 | For every band, valid divider and 32-bit millisecond count, the 64-bit product cannot overflow, and the divisor is positive and at most 256000 |
| Watchdog.OscClock | src/Wdt_lib.c:203-206 | The oscillator's output frequency is the base frequency divided by the divider, rounded down: `r·div <= freq < (r+1)·div` |
| Watchdog.Wdt.GetOscClk | src/Wdt_lib.c:203-206 | The same bounds, from the frequency and divider the library recorded |
| Watchdog.TimeoutTicks | src/Wdt_lib.c:104 | The TC value is within the 24-bit counter maximum |
| Watchdog.WindowTicks | src/Wdt_lib.c:105 | The WINDOW value is within its 24-bit maximum |
| Watchdog.WarningTicks | src/Wdt_lib.c:112 | The WARNINT value is within its 10-bit maximum |
| Watchdog.WindowWithinTimeout | src/Wdt_lib.c:104-105 | WINDOW never exceeds TC, whatever the guard time |
| Watchdog.NoGuardOpenWindow | inc/core.h:185-190 | With no guard time WINDOW equals TC, so a feed is accepted at any time |
| Watchdog.TimeoutRangeRepresentable | inc/core.h:181-183 | Any timeout from 200 ms to 29 s gives a positive, unclipped count at every band and divider |
| Watchdog.WarnRange | inc/core.h:196-199 | At the slowest clock, warning times up to 400 ms are unclipped; at the fastest, 1 ms gives 575 ticks and 2 ms is already clipped |
| Watchdog.DefaultSettings | inc/core.h:167-209 | The shipped settings are valid and give WDTOSCCTRL 0x3F, a 9375 Hz clock, TC and WINDOW of 4687 ticks and WARNINT of 468 |
| Watchdog.ClockExamples | inc/core.h:159-165 | The fastest watchdog clock is 2.3 MHz; at the slowest, 1000 s gives 2343750 ticks (unclipped) and 10000 s is clipped |
| Watchdog.Wdt.constructor | src/Wdt_lib.c:30-31 | The library state starts at zero, like the C statics |
| Watchdog.Wdt.Ini | src/Wdt_lib.c:96-113 | Performs exactly the Wdt_ini operations for the configuration, leaves the register file as their replay, and records the band frequency and divider |
| Watchdog.IniOscillatorFirst | src/Wdt_lib.c:99-108 | WDTOSCCTRL is written and the oscillator powered before MOD starts the watchdog; its bus clock is on before TC is loaded |
| Watchdog.IniLoadBeforeStart | src/Wdt_lib.c:104-108 | TC, WINDOW and the interrupt enable all come before MOD is written |
| Watchdog.IniFeedAfterStart | src/Wdt_lib.c:108-112 | MOD is written before the feed, and WARNINT only after the feed |
| Watchdog.IniFeeds | src/Wdt_lib.c:109 | Wdt_ini performs the first feed word |
| Watchdog.IniNoWaits | src/Wdt_lib.c:96-113 | Wdt_ini never busy-waits on a register |
| Watchdog.IniOscillatorSetting | src/Wdt_lib.c:99 | Afterwards WDTOSCCTRL holds the packed band and divider |
| Watchdog.IniPowersOscillator | src/Wdt_lib.c:100 | Afterwards PDRUNCFG is its earlier value with the watchdog-oscillator power-down bit cleared |
| Watchdog.IniClocksWatchdog | src/Wdt_lib.c:101 | Afterwards SYSAHBCLKCTRL is its earlier value with the WWDT clock bit set |
| Watchdog.IniLoadsTimeout | src/Wdt_lib.c:104 | Afterwards TC holds the converted timeout |
| Watchdog.IniLoadsWindow | src/Wdt_lib.c:105 | Afterwards WINDOW holds the converted timeout minus guard time |
| Watchdog.IniSetsMode | src/Wdt_lib.c:108 | Afterwards MOD holds the configured mode |
| Watchdog.IniFeedsLast | src/Wdt_lib.c:109 | Afterwards the last word written to FEED is 0x55 |
| Watchdog.IniSetsWarning | src/Wdt_lib.c:112 | Afterwards WARNINT holds the converted warning time |
| Watchdog.IniLeavesOthers | src/Wdt_lib.c:96-113 | No register besides the eight it writes changes |
| Watchdog.Clr | src/Wdt_lib.c:217-222 | Performs exactly the two feed writes, 0xAA then 0x55 |
| Watchdog.FeedWritten | src/Wdt_lib.c:220-221 | After the feed, FEED holds 0x55 and every other register is unchanged |
| Watchdog.AckWarning | src/Wdt_lib.c:71-72 | The acknowledged MOD value has WDINT set, WDTOF clear and every other bit as before |
| Watchdog.IrqHandler | src/Wdt_lib.c:62-73 | Performs the hook call, then the WDINT set, then the WDTOF clear, and leaves the register file as their replay |
| Watchdog.WarnAcknowledged | src/Wdt_lib.c:71-72 | After the handler MOD is the acknowledged value of what it was |
| Watchdog.WarnLeavesOthers | src/Wdt_lib.c:62-73 | The handler changes no register besides MOD |
| Watchdog.OscEvents | src/Wdt_lib.c:99-101 | Wdt_ini's first three operations: WDTOSCCTRL gets the packed word, the oscillator's power-down bit is cleared in PDRUNCFG, and the WWDT bus clock bit is set |
| Watchdog.LoadEvents | src/Wdt_lib.c:104-106 | TC and WINDOW get the converted timeout and window counts, then the interrupt is enabled |
| Watchdog.StartEvents | src/Wdt_lib.c:108-109 | MOD gets WWDT_MODE, then the two feed words 0xAA and 0x55 |
| Watchdog.IniEvents | src/Wdt_lib.c:96-113 | Wdt_ini's operations in source order: oscillator set-up, counter loading, start, then the WARNINT count |
| Hardware.Step | src/Sys_lib.c:109-169 | One operation changes only the register it names: a store puts in the value (a count truncated to 32 bits), an OR-assignment sets the mask bits, an AND-NOT assignment clears them, and a finished busy-wait leaves the polled field equal to the awaited value; other operations change no register |
| Hardware.Replay | src/Sys_lib.c:92-171 | The register file after a sequence of operations is each step applied in order, and has a value for every register |
| Hardware.Acknowledge | src/Sys_lib.c:124-126 | A register that ends a busy-wait has the awaited value in the polled field and its other bits unchanged |
| Clock.PllFromClkin | src/Sys_lib.c:112 | CLKIN feeds the PLL exactly when the two selector bits of SYS_PLL_CLK are 3 |
| Clock.PllSourceHz | src/Sys_lib.c:101-102 | The PLL input frequency is CLKIN_HZ when CLKIN feeds the PLL, and IRC_HZ for every other selector value |
| Clock.IrcNeeded | src/Sys_lib.c:128-156 | The IRC is still in use when it is the main clock, or when it feeds the PLL whose input or output is the main clock |
| Clock.IrcPoweredDown | src/Sys_lib.c:164 | The IRC is powered down exactly when IRC_PDWON is set and the IRC is not in use |
| Clock.SystemClockHz | src/Sys_lib.c:170 | SystemCoreClock is the main clock divided by SYS_CLK_DIV |
| Clock.ClkinEvents | src/Sys_lib.c:112-120 | For a CLKIN input: MODE cleared in PIO0_1, CLKIN_DIS cleared in PINENABLE0, then the 200-iteration settle loop; nothing otherwise |
| Clock.PllSelectEvents | src/Sys_lib.c:122-126 | SYSPLLCLKSEL gets SYS_PLL_CLK, SYSPLLCLKUEN gets the update bit, then the wait for that bit |
| Clock.PllStartEvents | src/Sys_lib.c:139-144 | Only for the PLL output: SYSPLLCTRL gets the multiplier less one, the PLL power-down bit is cleared, then the wait for the lock bit |
| Clock.MainSelectEvents | src/Sys_lib.c:158-162 | MAINCLKSEL gets MAIN_CLK_SEL, MAINCLKUEN gets the update bit, then the wait for that bit |
| Clock.PowerDownEvents | src/Sys_lib.c:164-166 | Both IRC power-down bits are set in PDRUNCFG exactly when the IRC is powered down |
| Clock.SysEvents | src/Sys_lib.c:108-169 | The operations after Wdt_ini in source order: SWM and IOCON clocks, CLKIN segment, PLL input latch, PLL start-up, main clock latch, IRC power-down, SYSAHBCLKDIV |
| Clock.BootEvents | src/Sys_lib.c:92-171 | Sys_iniLpc810's operations: Wdt_ini's, then the clock set-up's |
| Clock.PowerBits | src/Sys_lib.c:141-165 | The PDRUNCFG value with the watchdog oscillator powered, the PLL powered if asked and both IRC bits set if asked; each bit group is either that value or unchanged, and every other bit is unchanged |
| Clock.MainSource | src/Sys_lib.c:128 | The main clock selector masked to its two bits is one of the four source codes |
| Clock.MainClockHz | src/Sys_lib.c:128-156 | The main clock of every valid configuration is at most 384 MHz, so the 32-bit `Sys_mainClk` never wraps |
| Clock.SystemClockRounding | src/Sys_lib.c:170 | SystemCoreClock is the main clock divided by SYS_CLK_DIV with the remainder dropped, and never exceeds the main clock |
| Clock.PowerAfterBoot | src/Sys_lib.c:164-166 | PDRUNCFG after the start-up: watchdog oscillator powered; PLL powered exactly when its output is the main clock, else unchanged; both IRC bits set exactly when the IRC is powered down, else unchanged; all other bits unchanged |
| Clock.TraceAssembly | src/Sys_lib.c:92-171 | The stage segments performed one after another make up the whole start-up sequence |
| Clock.Sys.constructor | src/Sys_lib.c:38-43 | Before the start-up both recorded frequencies are zero |
| Clock.Sys.IniLpc810 | src/Sys_lib.c:92-171 | Performs exactly the start-up operations for the configuration, leaves the register file as their replay, initialises the watchdog state, and records the main and system clock frequencies of the configuration |
| Clock.Sys.GetMainClk | src/Sys_lib.c:181-184 | Returns the main clock of the configuration applied, or 0 before the start-up |
| Clock.Sys.GetSysClk | src/Sys_lib.c:194-197 | Returns the system clock of the configuration applied, or 0 before the start-up, and never more than the main clock |
| Clock.SelectPllInput | src/Sys_lib.c:111-126 | For a CLKIN input: configures the pin and settles first. Then writes SYSPLLCLKSEL, latches it and waits. Returns "IRC feeds the PLL" exactly when the input is not CLKIN, and the input frequency |
| Clock.SelectMainSource | src/Sys_lib.c:128-156 | Starts the PLL only for the PLL output. Returns the main clock frequency of each source, and "IRC still needed" exactly when the IRC is the main clock or feeds the PLL that is |
| Clock.SwitchMainClock | src/Sys_lib.c:158-166 | Writes, latches and awaits MAINCLKSEL, then powers the IRC down exactly when allowed and no longer needed |
| Clock.DocumentedClocks | inc/core.h:63-94 | The shipped settings give 12 MHz main and system clocks and keep the IRC; the watchdog oscillator gives 9375 Hz and the IRC is powered down |
| Clock.DocumentedPllClocks | inc/core.h:71-85 | CLKIN as the PLL input gives 12 MHz with the IRC off; doubling the IRC gives 24 MHz with the IRC on; doubling CLKIN gives 24 MHz with the IRC off |
| Clock.PllLimitUnchecked | inc/core.h:75-85 | A valid multiplier of 32 gives 384 MHz, beyond the part's 30 MHz maximum: nothing in the start-up enforces that limit |
| Clock.SysOscTakenForIrc | src/Sys_lib.c:111-120 | The system-oscillator PLL input, absent on the LPC810, is treated as the IRC: 12 MHz from the IRC, and the IRC stays powered |
| Clock.BootWatchdogFirst | src/Sys_lib.c:105-169 | Wdt_ini's feed, and so its write of MOD with the configured mode, comes before both latch waits and before the divider write |
| Clock.SysKeepsMode | src/Sys_lib.c:106-170 | At every point of the clock set-up after Wdt_ini, MOD holds WWDT_MODE as Wdt_ini wrote it. So the watchdog is enabled during the busy-waits exactly when WWDT_MODE has WDEN set, and runs when its oscillator band is not 0 |
| Clock.BootPllLockWatched | src/Sys_lib.c:105-144 | With the PLL output as the main clock, the PLL lock wait also comes after Wdt_ini's feed |
| Clock.SysNoFeed | src/Sys_lib.c:108-170 | The clock set-up after Wdt_ini never feeds the watchdog |
| Clock.SysClkinGatedFirst | src/Sys_lib.c:109-113 | With a CLKIN input, the SWM and IOCON clocks are enabled before the pin's pull resistor is removed |
| Clock.SysClkinPinFirst | src/Sys_lib.c:114-122 | With a CLKIN input, the CLKIN pin function is enabled before SYSPLLCLKSEL is written |
| Clock.SysClkinSettledFirst | src/Sys_lib.c:115-122 | With a CLKIN input, the settling delay comes before SYSPLLCLKSEL is written |
| Clock.SysClkinIff | src/Sys_lib.c:111-120 | The CLKIN pin is enabled exactly when CLKIN feeds the PLL |
| Clock.SysPllSelectBeforeLatch | src/Sys_lib.c:122-123 | SYSPLLCLKSEL is written before SYSPLLCLKUEN |
| Clock.SysPllLatchBeforeWait | src/Sys_lib.c:123-126 | SYSPLLCLKUEN is written before the wait for its update |
| Clock.SysPllInputBeforeSwitch | src/Sys_lib.c:124-158 | The PLL input update is awaited before MAINCLKSEL is written |
| Clock.SysPllInputBeforeStart | src/Sys_lib.c:124-140 | With the PLL output, the PLL input update is awaited before SYSPLLCTRL is written |
| Clock.SysPllRateBeforeLock | src/Sys_lib.c:140-144 | With the PLL output, SYSPLLCTRL is written before the lock wait |
| Clock.SysPllPowerBeforeLock | src/Sys_lib.c:141-144 | With the PLL output, the PLL is powered before the lock wait |
| Clock.SysPllLockBeforeSwitch | src/Sys_lib.c:142-158 | With the PLL output, the lock is awaited before MAINCLKSEL is written |
| Clock.SysPllStartIff | src/Sys_lib.c:139-149 | SYSPLLCTRL is written exactly when the PLL output is the main clock |
| Clock.SysMainSelectBeforeLatch | src/Sys_lib.c:158-159 | MAINCLKSEL is written before MAINCLKUEN |
| Clock.SysMainLatchBeforeWait | src/Sys_lib.c:159-162 | MAINCLKUEN is written before the wait for its update |
| Clock.SysPowerDownAfterSwitch | src/Sys_lib.c:160-169 | When the IRC is powered down, that happens after the main clock update is awaited and before the divider is written |
| Clock.SysPowerDownIff | src/Sys_lib.c:164-166 | PDRUNCFG bits are set exactly when IRC_PDWON allows it and nothing uses the IRC |
| Clock.SysDividerAfterSwitch | src/Sys_lib.c:160-169 | SYSAHBCLKDIV is written only after the main clock update is awaited |
| Clock.BootDivider | src/Sys_lib.c:169 | Afterwards SYSAHBCLKDIV holds SYS_CLK_DIV |
| Clock.BootMainSelector | src/Sys_lib.c:158 | Afterwards MAINCLKSEL holds MAIN_CLK_SEL |
| Clock.BootPllSelector | src/Sys_lib.c:122 | Afterwards SYSPLLCLKSEL holds SYS_PLL_CLK |
| Clock.ClkinEffect | src/Sys_lib.c:112-120 | The CLKIN segment clears MODE in PIO0_1 and CLKIN_DIS in PINENABLE0, other bits kept, when CLKIN feeds the PLL, and changes neither register otherwise |
| Clock.BootClkinPull | src/Sys_lib.c:112-113 | Afterwards PIO0_1 is its reset value with MODE cleared when CLKIN feeds the PLL, and its reset value otherwise |
| Clock.BootClkinPin | src/Sys_lib.c:112-114 | Afterwards PINENABLE0 is its reset value with CLKIN_DIS cleared when CLKIN feeds the PLL, and its reset value otherwise |
| Clock.LatchEffect | src/Sys_lib.c:122-126 | Each latch segment leaves its update register (SYSPLLCLKUEN, MAINCLKUEN) holding the update bit that its wait polled for |
| Clock.BootPllLatched | src/Sys_lib.c:123-126 | Afterwards SYSPLLCLKUEN holds the update bit |
| Clock.BootMainLatched | src/Sys_lib.c:159-162 | Afterwards MAINCLKUEN holds the update bit |
| Clock.PllStartLock | src/Sys_lib.c:139-144 | Only for the PLL output, the PLL start-up leaves SYSPLLSTAT with the lock bit at "locked" and its other bits unchanged; otherwise SYSPLLSTAT is untouched |
| Clock.BootPllLocked | src/Sys_lib.c:139-144 | Afterwards SYSPLLSTAT reads as locked with its other bits as at reset for the PLL output, and is its reset value for every other source |
| Clock.PllStartRate | src/Sys_lib.c:140 | The PLL start-up stores the multiplier less one in SYSPLLCTRL |
| Clock.SysPllRateSet | src/Sys_lib.c:139-149 | With the PLL output, SYSPLLCTRL ends up holding the multiplier less one |
| Clock.SysPllRateKept | src/Sys_lib.c:128-156 | With any other source, SYSPLLCTRL is left alone |
| Clock.BootPllRate | src/Sys_lib.c:139-149 | Over the whole start-up: SYSPLLCTRL holds the multiplier less one for the PLL output, and its reset value otherwise |
| Clock.BootBusClocks | src/Sys_lib.c:109 | Afterwards SYSAHBCLKCTRL is its reset value with the WWDT, SWM and IOCON clock bits OR-ed in, and no bit cleared |
| Clock.PllStartPower | src/Sys_lib.c:141 | The PLL start-up clears the PLL power-down bit, only for the PLL output |
| Clock.SwitchPower | src/Sys_lib.c:158-169 | The switch-over stage sets both IRC power-down bits exactly when the IRC is powered down, and otherwise leaves PDRUNCFG alone |
| Clock.SysPower | src/Sys_lib.c:139-166 | The clock set-up changes PDRUNCFG only through the PLL start-up and the IRC power-down |
| Clock.BootPower | src/Sys_lib.c:100-166 | Afterwards PDRUNCFG is `PowerAfterBoot` of its reset value |
| Clock.BootKeepsWatchdog | src/Sys_lib.c:108-170 | The clock set-up leaves the six watchdog registers as Wdt_ini set them |

## Left out

- Registers are plain memory. The write-1-to-clear behaviour of the MOD flags, the
  read-only PLL status and the counter running down are not modelled. A busy-wait is one
  operation whose completion the hardware grants: its termination is assumed, not proved.
- The interrupt controller and the delay loop are recorded as single operations. The
  loop's 200 iterations and the NVIC's own state are not modelled.
- `Wdt_procWarn`, the weak hook: the handler records the call; what an overriding
  definition does is not modelled. The empty default has no effect on the registers.
- LOCK and WDPROTECT in MOD: the source does not use them; not modelled.
- `src/main.c` and `SystemCoreClockUpdate` (an empty stub) are not part of this model.
- The selectors in `Config` are kept as integers, and the source's `& 3` is written
  `% 4`, which agrees with it for the non-negative values a `uint32_t` holds.
- Clock.MainClockHz: the 32-bit arithmetic of `Sys_mainClk` is not wrapped. The contract
  shows that no valid configuration exceeds 384 MHz, so no wrap can occur.
- Watchdog.MsToTicks: the 64-bit product and the 32-bit result are not wrapped.
  `ProductsFit` shows that they cannot overflow for valid inputs, and the result is at
  most its maximum.
- Watchdog.Wdt.GetOscClk: requires that `Wdt_calcOscCtrl` has run (a non-zero divider).
  The source divides by zero otherwise, and its comment asks callers to initialise first.
- Clock.Sys.IniLpc810: `Sys_iniLpc810` is one C function. Here it is one method that
  calls three stage methods (`SelectPllInput`, `SelectMainSource`, `SwitchMainClock`),
  each proved against its own segment of operations.
- The part's 30 MHz maximum is not enforced, and neither is any limit on multiplier times
  input frequency. The code does not check them, so the model does not either.
  `PllLimitUnchecked` shows the gap.
- Hardware.Chip.Perform: it states only the appended operation. The effect on the
  registers follows from `Regs()` replaying the trace.
- Watchdog.Clr, Clock.SelectPllInput, Clock.SelectMainSource, Clock.SwitchMainClock: they
  state their operations but not the register file they leave. That follows from `Regs()`
  replaying the trace, and `FeedWritten`, `ClkinEffect`, `LatchEffect`, `PllStartRate`,
  `PllStartLock`, `PllStartPower` and `SwitchPower` state it for each segment.
