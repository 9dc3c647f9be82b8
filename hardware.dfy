/**
 * The part of the LPC810 register file that the clock and watchdog libraries touch,
 * and the bus through which they touch it.
 *
 * A `Chip` holds the current value of every register and an append-only trace of the
 * bus operations performed so far. Each operation is recorded in the form the firmware
 * writes it: a plain store, an OR-in of bits, a clearing of bits, a busy-wait on a
 * status field, or one of the few calls that are not register accesses.
 */
module Hardware {

  type Word = bv32

  /** The memory-mapped registers used by the clock and watchdog code (UM10601). */
  datatype Reg =
    | WdtOscCtrl | PdRunCfg | SysAhbClkCtrl | SysAhbClkDiv
    | SysPllClkSel | SysPllClkUen | SysPllCtrl | SysPllStat
    | MainClkSel | MainClkUen
    | IoconPio0_1 | SwmPinEnable0
    | WdtMod | WdtTc | WdtFeed | WdtWindow | WdtWarnInt

  // PDRUNCFG: a set bit powers the block down.
  const IrcOutPd: Word := 0x1
  const IrcPd: Word := 0x2
  const WdtOscPd: Word := 0x40
  const SysPllPd: Word := 0x80

  // SYSAHBCLKCTRL: a set bit enables the block's clock.
  const AhbSwm: Word := 0x80
  const AhbWwdt: Word := 0x2_0000
  const AhbIocon: Word := 0x4_0000

  // Update-enable registers and the PLL status register.
  const PllClkUpdate: Word := 0x1
  const MainClkUpdate: Word := 0x1
  const PllStatLock: Word := 0x1
  const PllLocked: Word := 0x1

  // Pin configuration of PIO0_1 and the fixed-pin enable of CLKIN.
  const IoconMode: Word := 0x18
  const SwmClkinDis: Word := 0x80

  // Watchdog MOD register.
  const WdEn: Word := 0x1
  const WdReset: Word := 0x2
  const WdTof: Word := 0x4
  const WdInt: Word := 0x8

  /** The low 32 bits of a non-negative integer: what a register keeps of a stored count. */
  function ToWord(n: nat): Word
  {
    (n % 0x1_0000_0000) as Word
  }

  /** One operation on the bus, as the firmware performs it. */
  datatype Event =
    | Write(reg: Reg, value: Word)              // reg = value, a bit pattern
    | WriteCount(reg: Reg, count: nat)          // reg = count, an integer the firmware computed
    | SetBits(reg: Reg, mask: Word)             // reg |= mask
    | ClearBits(reg: Reg, mask: Word)           // reg &= ~mask
    | Await(reg: Reg, mask: Word, want: Word)   // spin until (reg & mask) == want
    | EnableWdtIrq                              // interrupt controller: enable the watchdog IRQ
    | Settle(cycles: nat)                       // counted delay loop of `cycles` no-ops
    | WarnHook                                  // call of the overridable warning hook

  /** An event with its values forgotten: what kind of access, to which register. */
  datatype Op = Assign(r: Reg) | Raise(r: Reg) | Lower(r: Reg) | Wait(r: Reg) | IrqOn | Delay | Hook

  function OpOf(e: Event): Op
  {
    match e
    case Write(r, _) => Assign(r)
    case WriteCount(r, _) => Assign(r)
    case SetBits(r, _) => Raise(r)
    case ClearBits(r, _) => Lower(r)
    case Await(r, _, _) => Wait(r)
    case EnableWdtIrq => IrqOn
    case Settle(_) => Delay
    case WarnHook => Hook
  }

  /** The register an event reads or changes, if any. */
  predicate Touches(e: Event, r: Reg)
  {
    match e
    case Write(x, _) => x == r
    case WriteCount(x, _) => x == r
    case SetBits(x, _) => x == r
    case ClearBits(x, _) => x == r
    case Await(x, _, _) => x == r
    case _ => false
  }

  /** `v` with the bits of `m` set (the firmware's `|=`). */
  function Raised(v: Word, m: Word): Word
  {
    v | m
  }

  /** `v` with the bits of `m` cleared (the firmware's `&= ~`). */
  function Cleared(v: Word, m: Word): Word
  {
    v & !m
  }

  /** The value a polled register holds once the hardware has acknowledged a busy-wait. */
  function Acknowledge(v: Word, mask: Word, want: Word): (r: Word)
    ensures r & mask == want & mask
    ensures r & !mask == v & !mask
  {
    (v & !mask) | (want & mask)
  }

  /** Every register has a value. */
  ghost predicate Total(regs: map<Reg, Word>)
  {
    forall r: Reg :: r in regs
  }

  /** The effect of one bus operation on the register file: only the register it touches may change. */
  function Step(regs: map<Reg, Word>, e: Event): (regs': map<Reg, Word>)
    requires Total(regs)
    ensures Total(regs')
  {
    match e
    case Write(r, v) => regs[r := v]
    case WriteCount(r, n) => regs[r := ToWord(n)]
    case SetBits(r, m) => regs[r := Raised(regs[r], m)]
    case ClearBits(r, m) => regs[r := Cleared(regs[r], m)]
    case Await(r, m, w) => regs[r := Acknowledge(regs[r], m, w)]
    case _ => regs
  }

  /** A stored count lands in its register, truncated to 32 bits. */
  lemma StepStoresCount(regs: map<Reg, Word>, r: Reg, n: nat)
    requires Total(regs)
    ensures Step(regs, WriteCount(r, n))[r] == ToWord(n)
  {
  }

  /** An operation that does not touch `r` leaves it alone. */
  lemma StepUntouched(regs: map<Reg, Word>, e: Event, r: Reg)
    requires Total(regs) && !Touches(e, r)
    ensures Step(regs, e)[r] == regs[r]
  {
  }

  /** The register file reached from `regs` by performing the operations of `t` in order. */
  function Replay(regs: map<Reg, Word>, t: seq<Event>): (regs': map<Reg, Word>)
    requires Total(regs)
    ensures Total(regs')
    decreases |t|
  {
    if t == [] then regs else Step(Replay(regs, t[..|t| - 1]), t[|t| - 1])
  }

  /** Performing one more operation applies its step to the register file reached so far. */
  lemma ReplaySnoc(regs: map<Reg, Word>, t: seq<Event>, e: Event)
    requires Total(regs)
    ensures Replay(regs, t + [e]) == Step(Replay(regs, t), e)
  {
    assert (t + [e])[..|t|] == t;
  }

  /** No event of `t` touches `r`. */
  ghost predicate Untouched(t: seq<Event>, r: Reg)
  {
    forall e :: e in t ==> !Touches(e, r)
  }

  /** Performing `s` and then `t` is performing `s + t`. */
  lemma {:induction false} ReplayAppend(regs: map<Reg, Word>, s: seq<Event>, t: seq<Event>)
    requires Total(regs)
    ensures Replay(regs, s + t) == Replay(Replay(regs, s), t)
    decreases |t|
  {
    if t == [] {
      assert s + t == s;
    } else {
      var t' := t[..|t| - 1];
      ReplayAppend(regs, s, t');
      assert (s + t)[..|s + t| - 1] == s + t';
      assert (s + t)[|s + t| - 1] == t[|t| - 1];
    }
  }

  /** A register that no event of `t` touches keeps its value. */
  lemma {:induction false} ReplayUntouched(regs: map<Reg, Word>, t: seq<Event>, r: Reg)
    requires Total(regs) && Untouched(t, r)
    ensures Replay(regs, t)[r] == regs[r]
    decreases |t|
  {
    if t != [] {
      var t' := t[..|t| - 1];
      assert Untouched(t', r) by {
        forall i | 0 <= i < |t'| ensures !Touches(t'[i], r) {
          assert t'[i] == t[i];
        }
      }
      ReplayUntouched(regs, t', r);
      StepUntouched(Replay(regs, t'), t[|t| - 1], r);
    }
  }

  /**
   * The value of `r` after `p + [e] + q`, when `q` leaves `r` alone, is what `e` made of
   * the value `p` left in it.
   */
  lemma ReplayLastTouch(regs: map<Reg, Word>, p: seq<Event>, e: Event, q: seq<Event>, r: Reg)
    requires Total(regs) && Untouched(q, r)
    ensures Replay(regs, p + [e] + q)[r] == Step(Replay(regs, p), e)[r]
  {
    ReplayUntouchedTail(regs, p + [e], q, r);
    assert (p + [e])[..|p|] == p;
  }

  /** Operations that leave `r` alone, appended to a trace, do not change what the trace leaves in `r`. */
  lemma ReplayUntouchedTail(regs: map<Reg, Word>, p: seq<Event>, q: seq<Event>, r: Reg)
    requires Total(regs) && Untouched(q, r)
    ensures Replay(regs, p + q)[r] == Replay(regs, p)[r]
  {
    ReplayAppend(regs, p, q);
    ReplayUntouched(Replay(regs, p), q, r);
  }

  /** When `q` leaves `r` alone, the value of `r` after `p + m + q` is what `m` makes of the register file `p` left. */
  lemma ReplaySegment(regs: map<Reg, Word>, p: seq<Event>, m: seq<Event>, q: seq<Event>, r: Reg)
    requires Total(regs) && Untouched(q, r)
    ensures Replay(regs, p + m + q)[r] == Replay(Replay(regs, p), m)[r]
  {
    ReplayUntouchedTail(regs, p + m, q, r);
    ReplayAppend(regs, p, m);
  }

  /**
   * When `e` is the only operation of `p + [e] + q` that touches `r`, the value of `r`
   * afterwards is what `e` makes of its value before.
   */
  lemma ReplaySoleTouch(regs: map<Reg, Word>, p: seq<Event>, e: Event, q: seq<Event>, r: Reg)
    requires Total(regs) && Untouched(p, r) && Untouched(q, r)
    ensures Replay(regs, p + [e] + q)[r] == Step(regs, e)[r]
  {
    ReplayLastTouch(regs, p, e, q, r);
    ReplayUntouched(regs, p, r);
  }

  /** The microcontroller as its firmware sees it: the register file at reset and the bus history since. */
  class Chip {
    ghost var reset: map<Reg, Word>
    var trace: seq<Event>

    ghost predicate Valid()
      reads this
    {
      Total(reset)
    }

    /** The current register file: the reset values with every bus operation applied in order. */
    ghost function Regs(): (regs: map<Reg, Word>)
      requires Valid()
      reads this
      ensures Total(regs)
    {
      Replay(reset, trace)
    }

    constructor (init: map<Reg, Word>)
      requires Total(init)
      ensures Valid() && reset == init && trace == []
      ensures Regs() == init
    {
      reset := init;
      trace := [];
    }

    /** Performs one bus operation: it is appended to the history, so that `Regs()` takes its effect. */
    method Perform(e: Event)
      requires Valid()
      modifies this
      ensures Valid() && reset == old(reset)
      ensures trace == old(trace) + [e]
    {
      trace := trace + [e];
    }
  }

  // ---------------------------------------------------------------------------
  // Ordering of operations in a trace

  /** Some event of `t` is an `op`. */
  ghost predicate Has(t: seq<Event>, op: Op)
  {
    exists e :: e in t && OpOf(e) == op
  }

  /** The kind of the `i`-th operation of `t`. */
  function OpAt(t: seq<Event>, i: nat): Op
    requires i < |t|
  {
    OpOf(t[i])
  }

  /** Both kinds of operation occur in `t`, and every `a` comes before every `b`. */
  ghost predicate Before(t: seq<Event>, a: Op, b: Op)
  {
    && Has(t, a)
    && Has(t, b)
    && forall i: nat, j: nat :: i < |t| && j < |t| && OpAt(t, i) == a && OpAt(t, j) == b ==> i < j
  }

  /** An operation found only in the first part of a trace precedes one found only in the second. */
  lemma BeforeAcross(s: seq<Event>, t: seq<Event>, a: Op, b: Op)
    requires Has(s, a) && !Has(t, a)
    requires Has(t, b) && !Has(s, b)
    ensures Before(s + t, a, b)
  {
  }

  /** The same, with the two witnesses named. */
  lemma BeforeSplit(s: seq<Event>, t: seq<Event>, x: Event, y: Event)
    requires x in s && !Has(t, OpOf(x))
    requires y in t && !Has(s, OpOf(y))
    ensures Before(s + t, OpOf(x), OpOf(y))
  {
    BeforeAcross(s, t, OpOf(x), OpOf(y));
  }

  /** An order established inside a segment holds in any trace that has neither kind of operation around it. */
  lemma BeforeEmbed(p: seq<Event>, m: seq<Event>, q: seq<Event>, a: Op, b: Op)
    requires Before(m, a, b)
    requires !Has(p, a) && !Has(p, b) && !Has(q, a) && !Has(q, b)
    ensures Before(p + m + q, a, b)
  {
    var t := p + m + q;
    forall i: nat, j: nat | i < |t| && j < |t| && OpAt(t, i) == a && OpAt(t, j) == b
      ensures i < j
    {
      InSegment(p, m, q, i, a);
      InSegment(p, m, q, j, b);
      assert OpAt(m, i - |p|) == a && OpAt(m, j - |p|) == b;
    }
    var x :| x in m && OpOf(x) == a;
    var y :| y in m && OpOf(y) == b;
    assert x in t && y in t;
  }

  /** An operation of a kind absent before and after a segment lies inside it. */
  lemma InSegment(p: seq<Event>, m: seq<Event>, q: seq<Event>, i: nat, a: Op)
    requires i < |p + m + q| && OpAt(p + m + q, i) == a
    requires !Has(p, a) && !Has(q, a)
    ensures |p| <= i < |p| + |m| && (p + m + q)[i] == m[i - |p|]
  {
    var t := p + m + q;
    if i < |p| {
      assert false;
    } else if i >= |p| + |m| {
      assert false;
    }
  }
}
