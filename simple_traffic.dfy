/** The polled single-file controller of simple_traffic.c: a main loop that
    scans two keys, shows the countdown on two digits, drives the six LEDs,
    and every 500th pass counts a second down or changes phase. Its phase
    numbering starts at NS red / EW green, its yellow lasts five seconds,
    and a manual mode freezes the countdown. */
module SimpleTraffic {
  import opened Hw
  import TL = TrafficLight

  // Phase numbers of this file.
  const StateNsRedEwGreen: Byte := 0
  const StateNsRedEwYellow: Byte := 1
  const StateNsGreenEwRed: Byte := 2
  const StateNsYellowEwRed: Byte := 3

  // Durations in seconds (a red time of 30 is defined but never used).
  const TimeGreen: Byte := 25
  const TimeYellow: Byte := 5

  /** Main-loop passes per second event. */
  const SecondCount: Word := 500
  /** Seconds an emergency key press adds to the countdown. */
  const EmergencyBonus: Byte := 30

  /** Common-anode digit patterns of 0 to 9. */
  const DigitTable: seq<bv8> := [0xC0, 0xF9, 0xA4, 0xB0, 0x99, 0x92, 0x82, 0xF8, 0x80, 0x90]

  /** The all-segments-off pattern System_Init writes. */
  const Blank: bv8 := 0xFF

  /** The ten patterns are pairwise distinct and none of them is blank. */
  lemma DigitTableDistinct()
    ensures |DigitTable| == 10
    ensures forall i, j :: 0 <= i < j < 10 ==> DigitTable[i] != DigitTable[j]
    ensures forall i :: 0 <= i < 10 ==> DigitTable[i] != Blank
  {
  }

  /** The phase of the pin variant that lights the same lamps as phase `s`
      of this file: the two numberings are a half-turn of the cycle apart. */
  function Recode(s: Byte): Byte
  {
    (s + 2) % 4
  }

  /** The LEDs Traffic_SetLEDs leaves for phase `state`; a phase value out of
      range matches no case and leaves them as they were. */
  function SetLeds(state: Byte, prev: Lamps): (r: Lamps)
    ensures state < 4 ==> r == TL.LampsFor(Recode(state)) && r.Safe()
    ensures state >= 4 ==> r == prev
  {
    match state
    case 0 => Lamps(true, false, false, false, false, true)
    case 1 => Lamps(true, false, false, false, true, false)
    case 2 => Lamps(false, false, true, true, false, false)
    case 3 => Lamps(false, true, false, true, false, false)
    case _ => prev
  }

  /** A lamp set shows a yellow lamp. */
  predicate ShowsYellow(l: Lamps)
  {
    l.nsYellow || l.ewYellow
  }

  /** Traffic_StateTransition on (phase, countdown): the next phase of the
      same cycle the pin variant runs, loaded with the yellow time exactly
      when that phase lights a yellow lamp and the green time otherwise; a
      phase value out of range is left alone. */
  function Transition(s: Byte, t: Byte): (r: (Byte, Byte))
    ensures s < 4 ==> r.0 < 4 && r.0 != s && Recode(r.0) == TL.NextState(Recode(s))
    ensures s < 4 ==> r.1 == if ShowsYellow(SetLeds(r.0, AllOff)) then TimeYellow else TimeGreen
    ensures s >= 4 ==> r == (s, t)
  {
    match s
    case 0 => (StateNsRedEwYellow, TimeYellow)
    case 1 => (StateNsGreenEwRed, TimeGreen)
    case 2 => (StateNsYellowEwRed, TimeYellow)
    case 3 => (StateNsRedEwGreen, TimeGreen)
    case _ => (s, t)
  }

  /** The phase after `k` transitions. */
  function TransitionIter(s: Byte, k: nat): Byte
  {
    if k == 0 then s else Transition(TransitionIter(s, k - 1), 0).0
  }

  /** `k` transitions move the matching pin-variant phase `k` places round
      its cycle. */
  lemma {:induction false} TransitionCycles(s: Byte, k: nat)
    requires s < 4
    ensures TransitionIter(s, k) < 4
    ensures Recode(TransitionIter(s, k)) == TL.NextStateIter(Recode(s), k)
  {
    if k > 0 {
      TransitionCycles(s, k - 1);
    }
  }

  /** Every phase recurs after exactly four transitions, and not sooner. */
  lemma FourTransitionsReturn(s: Byte)
    requires s < 4
    ensures TransitionIter(s, 4) == s
    ensures forall k :: 0 < k < 4 ==> TransitionIter(s, k) != s
  {
    TL.FourChangesReturn(Recode(s));
    forall k | 0 < k < 4
      ensures TransitionIter(s, k) != s
    {
      TransitionCycles(s, k);
    }
    TransitionCycles(s, 4);
    RecodeInjective(TransitionIter(s, 4), s);
  }

  /** Distinct phases of this file match distinct pin-variant phases. */
  lemma RecodeInjective(a: Byte, b: Byte)
    requires a < 4 && b < 4 && Recode(a) == Recode(b)
    ensures a == b
  {
    assert a == 0 || a == 1 || a == 2 || a == 3;
    assert b == 0 || b == 1 || b == 2 || b == 3;
  }

  /** Display_ShowNumber's split of the number into the two digits it
      shows: the number clamped to 99. */
  function Digits(num: Byte): (r: (nat, nat))
    ensures r.0 < 10 && r.1 < 10
    ensures r.0 * 10 + r.1 == if num > 99 then 99 else num
  {
    var n := if num > 99 then 99 else num;
    (n / 10, n % 10)
  }

  /** One edge-detecting key latch of Key_Scan (`keyState1`, `keyState2`)
      fed one sample of its pin (`true` = high = released): the new latch
      and whether the key action runs. */
  function LatchStep(latch: bool, pinHigh: bool): (r: (bool, bool))
    ensures r.0 == pinHigh
    ensures r.1 <==> latch && !pinHigh
  {
    if !pinHigh && latch then (false, true)
    else if pinHigh then (true, false)
    else (latch, false)
  }

  /** Times a latch fires over a run of samples. */
  function Fires(latch: bool, pins: seq<bool>): nat
    decreases |pins|
  {
    if pins == [] then 0
    else (if LatchStep(latch, pins[0]).1 then 1 else 0) + Fires(LatchStep(latch, pins[0]).0, pins[1..])
  }

  /** High-to-low transitions in a run of samples, `prev` being the level
      before the first. */
  function FallingEdges(prev: bool, pins: seq<bool>): nat
    decreases |pins|
  {
    if pins == [] then 0
    else (if prev && !pins[0] then 1 else 0) + FallingEdges(pins[0], pins[1..])
  }

  /** A key acts once per press, however long it is held: the latch fires
      exactly on the falling edges of its pin. */
  lemma {:induction false} FiresOnFallingEdges(latch: bool, pins: seq<bool>)
    ensures Fires(latch, pins) == FallingEdges(latch, pins)
    decreases |pins|
  {
    if pins != [] {
      FiresOnFallingEdges(pins[0], pins[1..]);
    }
  }

  /** The state the main loop works on. */
  datatype Regs = Regs(state: Byte, timeLeft: Byte, manual: bool, emergency: bool,
                       modeLatch: bool, emergencyLatch: bool, counter: Word)

  /** Key_Scan with one sample of each key pin: a mode-key press toggles
      manual mode; an emergency-key press raises the emergency flag and adds
      30 seconds to the `unsigned char` countdown, wrapping past 255. */
  function ScanKeys(r: Regs, modeHigh: bool, emergencyHigh: bool): (r': Regs)
    ensures r'.modeLatch == modeHigh && r'.emergencyLatch == emergencyHigh
    ensures r'.manual <==> (r.manual <==> !(r.modeLatch && !modeHigh))
    ensures r'.emergency <==> r.emergency || (r.emergencyLatch && !emergencyHigh)
    ensures r.emergencyLatch && !emergencyHigh && r.timeLeft < 0x100 - EmergencyBonus
            ==> r'.timeLeft == r.timeLeft + EmergencyBonus
    ensures r.emergencyLatch && !emergencyHigh && r.timeLeft >= 0x100 - EmergencyBonus
            ==> r'.timeLeft == r.timeLeft + EmergencyBonus - 0x100 && r'.timeLeft < r.timeLeft
    ensures !(r.emergencyLatch && !emergencyHigh) ==> r'.timeLeft == r.timeLeft
    ensures r'.state == r.state && r'.counter == r.counter
  {
    var (modeLatch, modePressed) := LatchStep(r.modeLatch, modeHigh);
    var (emergencyLatch, emergencyPressed) := LatchStep(r.emergencyLatch, emergencyHigh);
    r.(modeLatch := modeLatch,
       manual := if modePressed then !r.manual else r.manual,
       emergencyLatch := emergencyLatch,
       emergency := if emergencyPressed then true else r.emergency,
       timeLeft := if emergencyPressed then (r.timeLeft + EmergencyBonus) % 0x100 else r.timeLeft)
  }

  /** Holding both keys down over two scans acts only once: the second scan
      changes neither the mode nor the countdown. */
  lemma HeldKeysActOnce(r: Regs, modeHigh: bool, emergencyHigh: bool)
    ensures var r1 := ScanKeys(r, modeHigh, emergencyHigh);
            var r2 := ScanKeys(r1, modeHigh, emergencyHigh);
            r2 == r1
  {
  }

  /** What a second event does: nothing in manual mode; otherwise count
      down, or at zero change phase and clear the emergency flag. */
  function Second(r: Regs): (r': Regs)
    ensures r'.counter == r.counter && r'.manual == r.manual
    ensures r'.modeLatch == r.modeLatch && r'.emergencyLatch == r.emergencyLatch
    ensures r.manual ==> r' == r
    ensures !r.manual && r.timeLeft > 0 ==> r' == r.(timeLeft := r.timeLeft - 1)
    ensures !r.manual && r.timeLeft == 0
            ==> (r'.state, r'.timeLeft) == Transition(r.state, r.timeLeft) && !r'.emergency
  {
    if r.manual then r
    else if r.timeLeft > 0 then r.(timeLeft := r.timeLeft - 1)
    else
      var (s, t) := Transition(r.state, r.timeLeft);
      r.(state := s, timeLeft := t, emergency := false)
  }

  /** `k` second events. */
  function Seconds(r: Regs, k: nat): Regs
  {
    if k == 0 then r else Second(Seconds(r, k - 1))
  }

  /** Manual mode freezes phase and countdown for any number of seconds. */
  lemma {:induction false} ManualFreezes(r: Regs, k: nat)
    requires r.manual
    ensures Seconds(r, k) == r
  {
    if k > 0 {
      ManualFreezes(r, k - 1);
    }
  }

  /** In automatic mode a countdown of `d` is shown as d, d - 1, ..., 0, one
      value per second, and the phase changes on the second after it reaches
      zero: a phase loaded with `d` seconds lasts `d + 1` second events. */
  lemma {:induction false} PhaseLastsOneSecondMore(r: Regs, k: nat)
    requires !r.manual && k <= r.timeLeft + 1
    ensures k <= r.timeLeft ==> Seconds(r, k) == r.(timeLeft := r.timeLeft - k)
    ensures k == r.timeLeft + 1
            ==> (Seconds(r, k).state, Seconds(r, k).timeLeft) == Transition(r.state, 0)
                && !Seconds(r, k).emergency
  {
    if k > 0 {
      PhaseLastsOneSecondMore(r, k - 1);
    }
  }

  /** The pass counter and the second event of one main-loop pass. */
  function CountStep(r: Regs): (r': Regs)
    ensures r.counter + 1 < SecondCount ==> r' == r.(counter := r.counter + 1)
    ensures SecondCount <= r.counter + 1 < 0x1_0000 ==> r' == Second(r).(counter := 0)
    ensures r'.counter < SecondCount
  {
    var c := (r.counter + 1) % 0x1_0000;
    if c >= SecondCount then Second(r).(counter := 0) else r.(counter := c)
  }

  /** `k` passes of the counter. */
  function CountSteps(r: Regs, k: nat): Regs
  {
    if k == 0 then r else CountStep(CountSteps(r, k - 1))
  }

  /** From a reset counter, a second event comes on exactly the 500th pass
      and not before. */
  lemma {:induction false} SecondEvery500Passes(r: Regs, k: nat)
    requires r.counter == 0 && k <= SecondCount
    ensures k < SecondCount ==> CountSteps(r, k) == r.(counter := k)
    ensures k == SecondCount ==> CountSteps(r, k) == Second(r)
  {
    if k > 0 {
      SecondEvery500Passes(r, k - 1);
    }
  }

  /** A second event neither reads nor writes the pass counter. */
  lemma SecondIgnoresCounter(r: Regs, c: Word)
    ensures Second(r.(counter := c)) == Second(r).(counter := c)
  {
  }

  /** How `n / 500` and `n % 500` move when `n` grows by one. */
  lemma PassStep(n: nat)
    ensures n % SecondCount + 1 < SecondCount
            ==> (n + 1) / SecondCount == n / SecondCount && (n + 1) % SecondCount == n % SecondCount + 1
    ensures n % SecondCount + 1 == SecondCount
            ==> (n + 1) / SecondCount == n / SecondCount + 1 && (n + 1) % SecondCount == 0
  {
    var q, m := n / SecondCount, n % SecondCount;
    assert n == SecondCount * q + m;
    if m + 1 < SecondCount {
      assert n + 1 == SecondCount * q + (m + 1);
    } else {
      assert n + 1 == SecondCount * (q + 1);
    }
  }

  /** The registers `k` passes after a reset counter, as the period of 500
      predicts: `k / 500` second events have run and the counter reads
      `k % 500`. */
  function AfterPasses(r: Regs, k: nat): Regs
  {
    Seconds(r, k / SecondCount).(counter := k % SecondCount)
  }

  /** From a reset counter, `k` passes have run exactly `k / 500` second
      events and leave the counter at `k % 500`: a second on every 500th
      pass, for ever. */
  lemma {:induction false} SecondsEvery500Passes(r: Regs, k: nat)
    requires r.counter == 0
    ensures CountSteps(r, k) == AfterPasses(r, k)
  {
    if k > 0 {
      SecondsEvery500Passes(r, k - 1);
      PassAfter(r, k - 1);
    }
  }

  /** One pass moves `AfterPasses` on by one. */
  lemma PassAfter(r: Regs, n: nat)
    ensures CountStep(AfterPasses(r, n)) == AfterPasses(r, n + 1)
  {
    PassStep(n);
    var s := Seconds(r, n / SecondCount);
    if n % SecondCount + 1 == SecondCount {
      SecondIgnoresCounter(s, n % SecondCount);
      assert Seconds(r, (n + 1) / SecondCount) == Second(s);
    }
  }

  /** The writes of System_Init to the display: port blank, every select low. */
  function InitWrites(): seq<BusWrite>
  {
    [Data(Blank), Sel(A, false), Sel(B, false), Sel(C, false)]
  }

  /** Display_ShowNumber with the segment port separate from the select
      lines: tens under (SEL_B, SEL_A) = (0, 0), then units under (0, 1). */
  function ShowNumberWrites(num: Byte): seq<BusWrite>
  {
    [Sel(A, false), Sel(B, false), Data(DigitTable[Digits(num).0]),
     Sel(A, true), Sel(B, false), Data(DigitTable[Digits(num).1])]
  }

  /** The tens digit is shown with both selects low and the units digit with
      only SEL_A high, and the two patterns are the digits of the clamped
      number. */
  lemma ShowNumberFrames(l: Levels, num: Byte)
    ensures Frames(l, ShowNumberWrites(num))
         == [Levels(DigitTable[Digits(num).0], false, false, l.selC),
             Levels(DigitTable[Digits(num).1], true, false, l.selC)]
    ensures Run(l, ShowNumberWrites(num)) == Levels(DigitTable[Digits(num).1], true, false, l.selC)
  {
    var t := ShowNumberWrites(num);
    var l1 := Apply(l, t[0]);
    var l2 := Apply(l1, t[1]);
    var l3 := Apply(l2, t[2]);
    var l4 := Apply(l3, t[3]);
    var l5 := Apply(l4, t[4]);
    var l6 := Apply(l5, t[5]);
    assert t[1..][1..] == t[2..];
    assert t[2..][1..] == t[3..];
    assert t[3..][1..] == t[4..];
    assert t[4..][1..] == t[5..];
    assert t[5..][1..] == [];
    assert Run(l5, t[5..]) == l6 && Frames(l5, t[5..]) == [l6];
    assert Run(l4, t[4..]) == l6 && Frames(l4, t[4..]) == [l6];
    assert Run(l3, t[3..]) == l6 && Frames(l3, t[3..]) == [l6];
    assert Run(l2, t[2..]) == l6 && Frames(l2, t[2..]) == [l3, l6];
    assert Run(l1, t[1..]) == l6 && Frames(l1, t[1..]) == [l3, l6];
  }

  // P2 bits the source uses as the SEL_A and SEL_B lines.
  const SelABit: bv8 := 0x40
  const SelBBit: bv8 := 0x80

  /** The P2 bit a select line is wired to in this file; SEL_C is on P3. */
  function SelBit(x: Line): bv8
  {
    match x
    case A => SelABit
    case B => SelBBit
    case C => 0
  }

  /** One display write as this file's wiring carries it out on P2: a data
      write replaces the whole byte, SEL_A and SEL_B set or clear their own
      bit, and SEL_C leaves P2 alone. */
  function ApplyP2(p2: bv8, w: BusWrite): bv8
  {
    match w
    case Data(v) => v
    case Sel(x, level) => if level then p2 | SelBit(x) else p2 & !SelBit(x)
  }

  /** P2 after a whole sequence of writes on this file's wiring. */
  function RunP2(p2: bv8, t: seq<BusWrite>): bv8
    decreases |t|
  {
    if t == [] then p2 else RunP2(ApplyP2(p2, t[0]), t[1..])
  }

  /** P2 right after each data write, that is, during each digit dwell. */
  function FramesP2(p2: bv8, t: seq<BusWrite>): seq<bv8>
    decreases |t|
  {
    if t == [] then []
    else (if t[0].Data? then [ApplyP2(p2, t[0])] else []) + FramesP2(ApplyP2(p2, t[0]), t[1..])
  }

  /** Display_ShowNumber as written: running its writes on P2 leaves the
      bare pattern on P2 during each dwell, because the pattern write that
      follows the two select writes replaces the whole byte. */
  lemma ShowNumberOnP2(p2: bv8, num: Byte)
    ensures FramesP2(p2, ShowNumberWrites(num)) == [DigitTable[Digits(num).0], DigitTable[Digits(num).1]]
    ensures RunP2(p2, ShowNumberWrites(num)) == DigitTable[Digits(num).1]
  {
    var t := ShowNumberWrites(num);
    var p1 := ApplyP2(p2, t[0]);
    var q2 := ApplyP2(p1, t[1]);
    var q3 := ApplyP2(q2, t[2]);
    var q4 := ApplyP2(q3, t[3]);
    var q5 := ApplyP2(q4, t[4]);
    var q6 := ApplyP2(q5, t[5]);
    assert t[1..][1..] == t[2..];
    assert t[2..][1..] == t[3..];
    assert t[3..][1..] == t[4..];
    assert t[4..][1..] == t[5..];
    assert t[5..][1..] == [];
    assert RunP2(q5, t[5..]) == q6 && FramesP2(q5, t[5..]) == [q6];
    assert RunP2(q4, t[4..]) == q6 && FramesP2(q4, t[4..]) == [q6];
    assert RunP2(q3, t[3..]) == q6 && FramesP2(q3, t[3..]) == [q6];
    assert RunP2(q2, t[2..]) == q6 && FramesP2(q2, t[2..]) == [q3, q6];
    assert RunP2(p1, t[1..]) == q6 && FramesP2(p1, t[1..]) == [q3, q6];
  }

  /** Every pattern has bit 7 set, so as written SEL_B reads high during
      both dwells, although the code drives it low before each; neither
      digit is addressed with the levels the code sets. */
  lemma ShowNumberSelectsClobbered(p2: bv8, num: Byte)
    ensures |FramesP2(p2, ShowNumberWrites(num))| == 2
    ensures forall k :: 0 <= k < 2 ==> FramesP2(p2, ShowNumberWrites(num))[k] & SelBBit != 0
  {
    ShowNumberOnP2(p2, num);
    assert forall d :: 0 <= d < 10 ==> DigitTable[d] & SelBBit != 0;
  }

  /** Showing 12 as written: the tens dwell has (SEL_B, SEL_A) = (1, 1) and
      the units dwell (1, 0), where (0, 0) and (0, 1) were meant. */
  lemma ShowNumberTwelve(p2: bv8)
    ensures FramesP2(p2, ShowNumberWrites(12)) == [0xF9, 0xA4]
    ensures FramesP2(p2, ShowNumberWrites(12))[0] & (SelABit | SelBBit) == SelABit | SelBBit
    ensures FramesP2(p2, ShowNumberWrites(12))[1] & (SelABit | SelBBit) == SelBBit
  {
    ShowNumberOnP2(p2, 12);
  }

  /** System_Init as written: writing the blank 0xFF and then clearing SEL_A
      and SEL_B clears bits 6 and 7 of that same byte, so P2 is left at 0x3F,
      which lights segment g and the decimal point of a common-anode digit,
      whatever P2 held before. */
  lemma InitOnP2(p2: bv8)
    ensures RunP2(p2, InitWrites()) == 0x3F
    ensures RunP2(p2, InitWrites()) != Blank
  {
    // P2: anything -> 0xFF -> 0xBF (SEL_A cleared) -> 0x3F (SEL_B cleared) -> 0x3F (SEL_C is on P3)
  }

  /** System_Init with the segment port apart from the selects: the port is
      blank and every select low, from any levels. */
  lemma InitLeavesBlank(l: Levels)
    ensures Run(l, InitWrites()) == Levels(Blank, false, false, false)
  {
    // data := Blank, then selA, selB and selC := false, one write at a time
  }

  /** Display_ShowNumber on a display whose segment port is separate from
      its select lines. */
  method ShowNumber(bus: Bus, num: Byte)
    modifies bus
    ensures bus.trace == old(bus.trace) + ShowNumberWrites(num)
  {
    var n := num;
    if n > 99 {
      n := 99;
    }
    var tens := n / 10;
    var units := n % 10;

    bus.Write(Sel(A, false));
    bus.Write(Sel(B, false));
    bus.Write(Data(DigitTable[tens]));

    bus.Write(Sel(A, true));
    bus.Write(Sel(B, false));
    bus.Write(Data(DigitTable[units]));
  }

  /** The globals, the static key latches and main's pass counter, the six
      LEDs on P1 and the digit display. */
  class Controller {
    var currentState: Byte
    var timeLeft: Byte
    var manual: bool
    var emergency: bool
    var modeLatch: bool
    var emergencyLatch: bool
    var counter: Word
    var leds: Lamps
    const display: Bus

    function Snapshot(): Regs
      reads this
    {
      Regs(currentState, timeLeft, manual, emergency, modeLatch, emergencyLatch, counter)
    }

    /** A valid phase, a pass counter below its period and a safe lamp set. */
    ghost predicate Valid()
      reads this
    {
      currentState < 4 && counter < SecondCount && leds.Safe()
    }

    /** The static initialisers, main's `counter = 0`, and the pins as they
        come out of reset. */
    constructor (display: Bus, pins: Lamps)
      ensures this.display == display
      ensures Snapshot() == Regs(StateNsRedEwGreen, TimeGreen, false, false, true, true, 0)
      ensures leds == pins
    {
      currentState := StateNsRedEwGreen;
      timeLeft := TimeGreen;
      manual := false;
      emergency := false;
      modeLatch := true;
      emergencyLatch := true;
      counter := 0;
      leds := pins;
      this.display := display;
    }

    /** System_Init: the lamps of phase 0, the display init writes, and
        phase 0 with the green time. The writes blank the display only with
        the segment port apart from the selects (`InitLeavesBlank`); on the
        P2 wiring as written they leave 0x3F (`InitOnP2`). */
    method SystemInit()
      modifies this`leds, this`currentState, this`timeLeft, display
      ensures leds == SetLeds(StateNsRedEwGreen, old(leds))
      ensures display.trace == old(display.trace) + InitWrites()
      ensures display.Current() == Levels(Blank, false, false, false)
      ensures currentState == StateNsRedEwGreen && timeLeft == TimeGreen
      ensures counter < SecondCount ==> Valid()
    {
      leds := Lamps(true, false, false, false, false, true);
      ghost var before := display.trace;
      display.Write(Data(Blank));
      display.Write(Sel(A, false));
      display.Write(Sel(B, false));
      display.Write(Sel(C, false));
      RunAppend(display.start, before, InitWrites());
      InitLeavesBlank(Run(display.start, before));
      currentState := StateNsRedEwGreen;
      timeLeft := TimeGreen;
    }

    /** Key_Scan, given one sample of each key pin. */
    method KeyScan(modeHigh: bool, emergencyHigh: bool)
      modifies this`manual, this`emergency, this`timeLeft, this`modeLatch, this`emergencyLatch
      ensures Snapshot() == ScanKeys(old(Snapshot()), modeHigh, emergencyHigh)
    {
      if !modeHigh && modeLatch {
        modeLatch := false;
        manual := !manual;
      } else if modeHigh {
        modeLatch := true;
      }
      if !emergencyHigh && emergencyLatch {
        emergencyLatch := false;
        emergency := true;
        timeLeft := (timeLeft + EmergencyBonus) % 0x100;
      } else if emergencyHigh {
        emergencyLatch := true;
      }
    }

    /** Traffic_SetLEDs. */
    method SetLEDs()
      modifies this`leds
      ensures leds == SetLeds(currentState, old(leds))
    {
      match currentState {
        case 0 => leds := Lamps(true, false, false, false, false, true);
        case 1 => leds := Lamps(true, false, false, false, true, false);
        case 2 => leds := Lamps(false, false, true, true, false, false);
        case 3 => leds := Lamps(false, true, false, true, false, false);
        case _ =>
      }
    }

    /** Traffic_StateTransition. */
    method StateTransition()
      modifies this`currentState, this`timeLeft
      ensures (currentState, timeLeft) == Transition(old(currentState), old(timeLeft))
    {
      match currentState {
        case 0 =>
          currentState := StateNsRedEwYellow;
          timeLeft := TimeYellow;
        case 1 =>
          currentState := StateNsGreenEwRed;
          timeLeft := TimeGreen;
        case 2 =>
          currentState := StateNsYellowEwRed;
          timeLeft := TimeYellow;
        case 3 =>
          currentState := StateNsRedEwGreen;
          timeLeft := TimeGreen;
        case _ =>
      }
    }

    /** One pass of main's endless loop, given the key samples: scan the
        keys, show the countdown, drive the LEDs of the current phase, and
        count the pass. */
    method MainLoopStep(modeHigh: bool, emergencyHigh: bool)
      requires Valid()
      modifies this, display
      ensures Valid()
      ensures Snapshot() == CountStep(ScanKeys(old(Snapshot()), modeHigh, emergencyHigh))
      ensures leds == SetLeds(old(currentState), old(leds))
      ensures display.trace
           == old(display.trace) + ShowNumberWrites(ScanKeys(old(Snapshot()), modeHigh, emergencyHigh).timeLeft)
    {
      KeyScan(modeHigh, emergencyHigh);
      ShowNumber(display, timeLeft);
      SetLEDs();
      CountPass();
    }

    /** The tail of main's loop body: count the pass and, on the 500th, run
        one second event. */
    method CountPass()
      requires currentState < 4
      modifies this`counter, this`timeLeft, this`currentState, this`emergency
      ensures Snapshot() == CountStep(old(Snapshot()))
      ensures currentState < 4
    {
      counter := (counter + 1) % 0x1_0000;
      if counter >= SecondCount {
        counter := 0;
        if !manual {
          if timeLeft > 0 {
            timeLeft := timeLeft - 1;
          } else {
            StateTransition();
            emergency := false;
          }
        }
      }
    }
  }
}
