/** The two-phase controller of smart_traffic/main_working_version.c: a
    Timer0 interrupt that raises a flag every 1000th tick, and a main loop
    that blinks a liveness pin every 50000 passes and, on each flag, counts
    a five-second countdown and swaps which head is green. It has no yellow
    phase. */
module WorkingMain {
  import opened Hw
  import TL = TrafficLight

  /** Interrupts per second flag. */
  const TicksPerSecond: Word := 1000
  /** Main-loop passes per liveness toggle. */
  const LoopsPerBlink: Word := 50000
  /** Seconds each phase lasts. */
  const SwitchTime: Byte := 5

  /** The lamps of phase `s`: NS green and EW red for 0, the reverse for any
      other value. They are the pin variant's green phases 0 and 2. */
  function WorkingLamps(s: Byte): (r: Lamps)
    ensures r.Safe() && !r.nsYellow && !r.ewYellow
    ensures s == 0 ==> r == TL.LampsFor(TL.StateNsGreenEwRed)
    ensures s != 0 ==> r == TL.LampsFor(TL.StateNsRedEwGreen)
  {
    if s == 0 then AllOff.(nsGreen := true, ewRed := true)
    else AllOff.(nsRed := true, ewGreen := true)
  }

  /** The phase a swap leads to. */
  function Flip(s: Byte): (r: Byte)
    ensures r < 2 && r != s
    ensures s < 2 ==> r == 1 - s
  {
    if s == 0 then 1 else 0
  }

  /** One Timer0 interrupt on (tick counter, second flag). */
  function IsrStep(c: Word, flag: bool): (r: (Word, bool))
    ensures c + 1 < TicksPerSecond ==> r == (c + 1, flag)
    ensures TicksPerSecond <= c + 1 < 0x1_0000 ==> r == (0, true)
    ensures r.0 < TicksPerSecond
  {
    var n := (c + 1) % 0x1_0000;
    if n >= TicksPerSecond then (0, true) else (n, flag)
  }

  /** `k` interrupts. */
  function IsrSteps(c: Word, flag: bool, k: nat): (Word, bool)
  {
    if k == 0 then (c, flag) else IsrStep(IsrSteps(c, flag, k - 1).0, IsrSteps(c, flag, k - 1).1)
  }

  /** From a reset counter and a clear flag, the counter reads `k` and the
      flag stays clear for the first 999 interrupts; the 1000th raises it. */
  lemma {:induction false} FlagEvery1000Ticks(k: nat)
    requires k <= TicksPerSecond
    ensures k < TicksPerSecond ==> IsrSteps(0, false, k) == (k, false)
    ensures k == TicksPerSecond ==> IsrSteps(0, false, k) == (0, true)
  {
    if k > 0 {
      FlagEvery1000Ticks(k - 1);
    }
  }

  /** How `n % 1000` and `n >= 1000` move when `n` grows by one. */
  lemma TickStep(n: nat)
    ensures n % TicksPerSecond + 1 < TicksPerSecond
            ==> (n + 1) % TicksPerSecond == n % TicksPerSecond + 1
                && (n + 1 >= TicksPerSecond <==> n >= TicksPerSecond)
    ensures n % TicksPerSecond + 1 == TicksPerSecond
            ==> (n + 1) % TicksPerSecond == 0 && n + 1 >= TicksPerSecond
  {
    var q, m := n / TicksPerSecond, n % TicksPerSecond;
    assert n == TicksPerSecond * q + m;
    if m + 1 < TicksPerSecond {
      assert n + 1 == TicksPerSecond * q + (m + 1);
    } else {
      assert n + 1 == TicksPerSecond * (q + 1);
    }
  }

  /** From a reset counter and a clear flag, `k` interrupts leave the counter
      at `k % 1000`, and the flag, which only the main loop clears, is raised
      exactly when at least 1000 interrupts have run. */
  lemma {:induction false} TicksEvery1000(k: nat)
    ensures IsrSteps(0, false, k) == (k % TicksPerSecond, k >= TicksPerSecond)
  {
    if k > 0 {
      TicksEvery1000(k - 1);
      TickAfter(k - 1);
    }
  }

  /** One interrupt moves the reduced form of `n` interrupts to that of `n + 1`. */
  lemma TickAfter(n: nat)
    ensures IsrStep(n % TicksPerSecond, n >= TicksPerSecond)
            == ((n + 1) % TicksPerSecond, n + 1 >= TicksPerSecond)
  {
    TickStep(n);
  }

  /** One second flag handled by the main loop on (phase, countdown): count
      down if positive, and at zero swap the phase and reload five seconds. */
  function OnSecond(s: Byte, t: Byte): (r: (Byte, Byte))
    ensures r.1 >= 1
    ensures t > 1 ==> r == (s, t - 1)
    ensures t <= 1 ==> r == (Flip(s), SwitchTime)
  {
    var t' := if t > 0 then t - 1 else t;
    if t' == 0 then (Flip(s), SwitchTime) else (s, t')
  }

  /** `k` second flags. */
  function Seconds(s: Byte, t: Byte, k: nat): (Byte, Byte)
  {
    if k == 0 then (s, t) else OnSecond(Seconds(s, t, k - 1).0, Seconds(s, t, k - 1).1)
  }

  /** A phase entered with five seconds keeps its lamps for four flags and
      swaps on the fifth; so the heads alternate every five seconds. */
  lemma {:induction false} PhaseLastsFiveSeconds(s: Byte, k: nat)
    requires k <= SwitchTime
    ensures k < SwitchTime ==> Seconds(s, SwitchTime, k) == (s, SwitchTime - k)
    ensures k == SwitchTime ==> Seconds(s, SwitchTime, k) == (Flip(s), SwitchTime)
  {
    if k > 0 {
      PhaseLastsFiveSeconds(s, k - 1);
    }
  }

  /** The pass counter of Working_Main_Loop after one pass. */
  function LoopStep(c: Word): (r: Word)
    ensures c + 1 < LoopsPerBlink ==> r == c + 1
    ensures LoopsPerBlink <= c + 1 < 0x1_0000 ==> r == 0
    ensures r < LoopsPerBlink
  {
    var n := (c + 1) % 0x1_0000;
    if n >= LoopsPerBlink then 0 else n
  }

  /** `k` passes. */
  function LoopSteps(c: Word, k: nat): Word
  {
    if k == 0 then c else LoopStep(LoopSteps(c, k - 1))
  }

  /** From zero the pass counter reads `k % 50000` after `k` passes, so the
      liveness pin toggles every 50000th pass. */
  lemma {:induction false} BlinkEvery50000Passes(k: nat)
    ensures LoopSteps(0, k) == k % LoopsPerBlink
  {
    if k > 0 {
      BlinkEvery50000Passes(k - 1);
      LoopStepMod(k - 1);
    }
  }

  lemma LoopStepMod(n: nat)
    ensures LoopStep(n % LoopsPerBlink) == (n + 1) % LoopsPerBlink
  {
    var q, r := n / LoopsPerBlink, n % LoopsPerBlink;
    assert n == LoopsPerBlink * q + r;
    if r + 1 < LoopsPerBlink {
      assert n + 1 == LoopsPerBlink * q + (r + 1);
    } else {
      assert n + 1 == LoopsPerBlink * (q + 1);
    }
  }

  /** The globals, the main loop's pass counter and the pins. */
  class Controller {
    var counter1s: Word
    var secondFlag: bool
    var globalState: Byte
    var globalTimeLeft: Byte
    var testCounter: Word
    var lamps: Lamps
    var debug1s: bool
    var debugState: bool

    /** A phase 0 or 1 showing its lamps, a countdown between 1 and five, and
        both counters below their periods. */
    ghost predicate Valid()
      reads this
    {
      && globalState < 2
      && 1 <= globalTimeLeft <= SwitchTime
      && lamps == WorkingLamps(globalState)
      && counter1s < TicksPerSecond
      && testCounter < LoopsPerBlink
    }

    /** The static initialisers, and the main loop's `testCounter = 0`; the
        pins keep whatever they held. */
    constructor (pins: Lamps, heartbeat: bool, statePin: bool)
      ensures counter1s == 0 && !secondFlag && testCounter == 0
      ensures globalState == 0 && globalTimeLeft == SwitchTime
      ensures lamps == pins && debug1s == heartbeat && debugState == statePin
    {
      counter1s := 0;
      secondFlag := false;
      globalState := 0;
      globalTimeLeft := SwitchTime;
      testCounter := 0;
      lamps := pins;
      debug1s := heartbeat;
      debugState := statePin;
    }

    /** Working_System_Init: every pin off, all on for the self-test, all
        off again, then phase 0 with five seconds and its two lamps. */
    method SystemInit()
      modifies this`lamps, this`debug1s, this`debugState, this`globalState, this`globalTimeLeft
      ensures lamps == WorkingLamps(0) && !debug1s && !debugState
      ensures globalState == 0 && globalTimeLeft == SwitchTime
      ensures counter1s < TicksPerSecond && testCounter < LoopsPerBlink ==> Valid()
    {
      debug1s := false;
      debugState := false;
      lamps := AllOff;
      debug1s := true;
      debugState := true;
      lamps := Lamps(true, true, true, true, true, true);
      debug1s := false;
      debugState := false;
      lamps := AllOff;
      globalState := 0;
      globalTimeLeft := SwitchTime;
      lamps := lamps.(nsGreen := true);
      lamps := lamps.(ewRed := true);
    }

    /** Working_Timer0_ISR (the timer reload is not modelled). */
    method Timer0Isr()
      modifies this`counter1s, this`secondFlag
      ensures (counter1s, secondFlag) == IsrStep(old(counter1s), old(secondFlag))
    {
      counter1s := (counter1s + 1) % 0x1_0000;
      if counter1s >= TicksPerSecond {
        counter1s := 0;
        secondFlag := true;
      }
    }

    /** One pass of Working_Main_Loop: count the pass, toggling the liveness
        pin on the 50000th, and consume a pending second flag. */
    method MainLoopStep()
      requires Valid()
      modifies this`testCounter, this`debug1s, this`secondFlag, this`debugState,
               this`globalState, this`globalTimeLeft, this`lamps
      ensures Valid()
      ensures testCounter == LoopStep(old(testCounter))
      ensures debug1s != old(debug1s) <==> old(testCounter) + 1 == LoopsPerBlink
      ensures !secondFlag
      ensures if old(secondFlag)
              then (globalState, globalTimeLeft) == OnSecond(old(globalState), old(globalTimeLeft))
                   && debugState == !old(debugState)
              else globalState == old(globalState) && globalTimeLeft == old(globalTimeLeft)
                   && debugState == old(debugState)
    {
      CountPass();
      HandleSecond();
    }

    /** The liveness half of the loop body: count the pass and toggle the
        pin on the 50000th. */
    method CountPass()
      modifies this`testCounter, this`debug1s
      ensures testCounter == LoopStep(old(testCounter))
      ensures debug1s != old(debug1s) <==> (old(testCounter) + 1) % 0x1_0000 >= LoopsPerBlink
    {
      testCounter := (testCounter + 1) % 0x1_0000;
      if testCounter >= LoopsPerBlink {
        testCounter := 0;
        debug1s := !debug1s;
      }
    }

    /** The second-flag half of the loop body: consume the flag, toggle the
        state pin, count down, and at zero swap the phase and its lamps. */
    method HandleSecond()
      requires globalState < 2 && 1 <= globalTimeLeft <= SwitchTime
      requires lamps == WorkingLamps(globalState)
      modifies this`secondFlag, this`debugState, this`globalState, this`globalTimeLeft, this`lamps
      ensures !secondFlag
      ensures globalState < 2 && 1 <= globalTimeLeft <= SwitchTime
      ensures lamps == WorkingLamps(globalState)
      ensures if old(secondFlag)
              then (globalState, globalTimeLeft) == OnSecond(old(globalState), old(globalTimeLeft))
                   && debugState == !old(debugState)
              else globalState == old(globalState) && globalTimeLeft == old(globalTimeLeft)
                   && debugState == old(debugState)
    {
      if secondFlag {
        secondFlag := false;
        debugState := !debugState;

        if globalTimeLeft > 0 {
          globalTimeLeft := globalTimeLeft - 1;
        }

        if globalTimeLeft == 0 {
          if globalState == 0 {
            globalState := 1;
            globalTimeLeft := SwitchTime;
            lamps := lamps.(nsGreen := false);
            lamps := lamps.(nsRed := true);
            lamps := lamps.(ewRed := false);
            lamps := lamps.(ewGreen := true);
            assert lamps == WorkingLamps(globalState);
          } else {
            globalState := 0;
            globalTimeLeft := SwitchTime;
            lamps := lamps.(nsRed := false);
            lamps := lamps.(nsGreen := true);
            lamps := lamps.(ewGreen := false);
            lamps := lamps.(ewRed := true);
            assert lamps == WorkingLamps(globalState);
          }
        }
      }
    }
  }
}
