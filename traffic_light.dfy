/** The interrupt-driven four-phase controller of smart_traffic/traffic_light.c:
    six lamp pins, a phase number with its seconds countdown, and the Timer0
    interrupt that divides ticks into seconds and advances the phase. */
module TrafficLight {
  import opened Hw

  // Phase numbers (the encoding of smart_traffic/main.c).
  const StateNsGreenEwRed: Byte := 0
  const StateNsYellowEwRed: Byte := 1
  const StateNsRedEwGreen: Byte := 2
  const StateNsRedEwYellow: Byte := 3

  // Durations in seconds.
  const GreenLightTime: Byte := 25
  const YellowLightTime: Byte := 3
  const FlashStartTime: Byte := 3

  /** Seconds each phase lasts, indexed by phase number. */
  const StateTimeTable: seq<Byte> := [GreenLightTime, YellowLightTime, GreenLightTime, YellowLightTime]

  /** Interrupts per second event, as the interrupt handler compares it. */
  const TickDivider: Word := 33
  /** Divisor of the heartbeat test, written `100 / 3` in the handler. */
  const HeartbeatDivisor: Word := 100 / 3

  /** The phase that follows `s`: `(s + 1) % 4`, computed in `int` so it never wraps. */
  function NextState(s: Byte): (r: Byte)
    ensures r < 4
    ensures s < 3 ==> r == s + 1
    ensures s == 3 ==> r == 0
  {
    (s + 1) % 4
  }

  /** `k` successive phase changes. */
  function NextStateIter(s: Byte, k: nat): Byte
  {
    if k == 0 then s else NextState(NextStateIter(s, k - 1))
  }

  /** From a valid phase, `k` changes move `k` places round the cycle. */
  lemma {:induction false} NextStateIterCycles(s: Byte, k: nat)
    requires s < 4
    ensures NextStateIter(s, k) == (s + k) % 4
  {
    if k > 0 {
      NextStateIterCycles(s, k - 1);
      SuccMod4(s + k - 1);
    }
  }

  /** Four changes return every valid phase to itself. */
  lemma FourChangesReturn(s: Byte)
    requires s < 4
    ensures NextStateIter(s, 4) == s
    ensures forall k :: 0 < k < 4 ==> NextStateIter(s, k) != s
  {
    var s1 := NextStateIter(s, 1);
    var s2 := NextStateIter(s, 2);
    var s3 := NextStateIter(s, 3);
    assert s1 == NextState(s) && s2 == NextState(s1) && s3 == NextState(s2);
    assert NextStateIter(s, 4) == NextState(s3);
    forall k | 0 < k < 4
      ensures NextStateIter(s, k) != s
    {
      assert k == 1 || k == 2 || k == 3;
    }
  }

  lemma SuccMod4(n: nat)
    ensures (n % 4 + 1) % 4 == (n + 1) % 4
  {
    var q, m := n / 4, n % 4;
    assert n == 4 * q + m;
    if m < 3 {
      assert n + 1 == 4 * q + (m + 1);
    } else {
      assert n + 1 == 4 * (q + 1);
    }
  }

  /** The lamps SetTrafficLights drives for phase `state`. */
  function LampsFor(state: Byte): (r: Lamps)
    ensures r.Safe()
    ensures state < 4 ==>
              && (r.nsGreen <==> state == StateNsGreenEwRed)
              && (r.nsYellow <==> state == StateNsYellowEwRed)
              && (r.ewGreen <==> state == StateNsRedEwGreen)
              && (r.ewYellow <==> state == StateNsRedEwYellow)
    ensures state >= 4 ==> r == AllRed
  {
    match state
    case 0 => AllOff.(nsGreen := true, ewRed := true)
    case 1 => AllOff.(nsYellow := true, ewRed := true)
    case 2 => AllOff.(nsRed := true, ewGreen := true)
    case 3 => AllOff.(nsRed := true, ewYellow := true)
    case _ => AllRed
  }

  /** The phase and its countdown. */
  datatype Phase = Phase(state: Byte, timeLeft: Byte)

  /** The phase as SwitchToNextState leaves it on entering phase `s`. */
  function Entered(s: Byte): Phase
    requires s < 4
  {
    Phase(s, StateTimeTable[s])
  }

  /** One second event of the interrupt handler: count down if positive, and
      change phase when the count is zero. */
  function OnSecond(p: Phase): (r: Phase)
    ensures r.timeLeft >= 1
    ensures p.timeLeft > 1 ==> r == Phase(p.state, p.timeLeft - 1)
    ensures p.timeLeft <= 1 ==> r == Entered(NextState(p.state))
  {
    var t := if p.timeLeft > 0 then p.timeLeft - 1 else p.timeLeft;
    if t == 0 then Entered(NextState(p.state)) else Phase(p.state, t)
  }

  /** `k` second events. */
  function AfterSeconds(p: Phase, k: nat): Phase
  {
    if k == 0 then p else OnSecond(AfterSeconds(p, k - 1))
  }

  /** A phase entered with `d` seconds on the clock keeps its number for the
      first `d - 1` second events, counting down, and changes on the `d`-th. */
  lemma {:induction false} PhaseLastsItsCount(s: Byte, d: Byte, k: nat)
    requires 1 <= d && k <= d
    ensures k < d ==> AfterSeconds(Phase(s, d), k) == Phase(s, d - k)
    ensures k == d ==> AfterSeconds(Phase(s, d), k) == Entered(NextState(s))
  {
    if k > 0 {
      PhaseLastsItsCount(s, d, k - 1);
    }
  }

  /** Every phase lasts exactly its table entry in second events. */
  lemma EachPhaseLastsItsTableTime(s: Byte)
    requires s < 4
    ensures AfterSeconds(Entered(s), StateTimeTable[s]) == Entered(NextState(s))
    ensures forall k :: 0 <= k < StateTimeTable[s] ==> AfterSeconds(Entered(s), k).state == s
  {
    PhaseLastsItsCount(s, StateTimeTable[s], StateTimeTable[s]);
    forall k | 0 <= k < StateTimeTable[s]
      ensures AfterSeconds(Entered(s), k).state == s
    {
      PhaseLastsItsCount(s, StateTimeTable[s], k);
    }
  }

  /** The interrupt counter after one interrupt. */
  function NextCount(c: Word): Word
  {
    var n := (c + 1) % 0x1_0000;
    if n >= TickDivider then 0 else n
  }

  function CountAfter(c: Word, k: nat): Word
  {
    if k == 0 then c else NextCount(CountAfter(c, k - 1))
  }

  /** From reset the counter reads `k % 33` after `k` interrupts, so a second
      event comes every 33rd interrupt. */
  lemma {:induction false} DividerCounts(k: nat)
    ensures CountAfter(0, k) == k % TickDivider
  {
    if k > 0 {
      DividerCounts(k - 1);
      DividerStep(k - 1);
    }
  }

  lemma DividerStep(n: nat)
    ensures NextCount(n % TickDivider) == (n + 1) % TickDivider
  {
    var q, r := n / TickDivider, n % TickDivider;
    assert n == TickDivider * q + r;
    assert (r + 1) % 0x1_0000 == r + 1;
    if r + 1 < TickDivider {
      assert NextCount(r) == r + 1;
      assert n + 1 == TickDivider * q + (r + 1);
    } else {
      assert NextCount(r) == 0;
      assert n + 1 == TickDivider * (q + 1);
    }
  }

  /** The globals of traffic_light.c and the pins it drives. */
  class Controller {
    var currentState: Byte
    var timeLeft: Byte
    var isFlashing: bool
    var timer0Count: Word
    var flashCount: Word
    var lamps: Lamps
    var debug1s: bool
    var debugState: bool

    /** What the interrupt handler keeps true: a valid phase whose countdown
        is between 1 and its table entry, and a tick count below the divider. */
    ghost predicate Valid()
      reads this
    {
      && currentState < 4
      && 1 <= timeLeft <= StateTimeTable[currentState]
      && timer0Count < TickDivider
    }

    function Current(): Phase
      reads this
    {
      Phase(currentState, timeLeft)
    }

    /** The static initialisers; the port pins keep whatever they held. */
    constructor (pins: Lamps, heartbeat: bool, statePin: bool)
      ensures Valid()
      ensures Current() == Entered(StateNsGreenEwRed) && !isFlashing
      ensures timer0Count == 0 && flashCount == 0
      ensures lamps == pins && debug1s == heartbeat && debugState == statePin
    {
      currentState := StateNsGreenEwRed;
      timeLeft := GreenLightTime;
      isFlashing := false;
      timer0Count := 0;
      flashCount := 0;
      lamps := pins;
      debug1s := heartbeat;
      debugState := statePin;
    }

    /** Clear all six lamps, then light the two of phase `state`. */
    method SetTrafficLights(state: Byte)
      modifies this`lamps
      ensures lamps == LampsFor(state)
    {
      lamps := lamps.(nsRed := false);
      lamps := lamps.(nsYellow := false);
      lamps := lamps.(nsGreen := false);
      lamps := lamps.(ewRed := false);
      lamps := lamps.(ewYellow := false);
      lamps := lamps.(ewGreen := false);
      match state
      case 0 =>
        lamps := lamps.(nsGreen := true);
        lamps := lamps.(ewRed := true);
      case 1 =>
        lamps := lamps.(nsYellow := true);
        lamps := lamps.(ewRed := true);
      case 2 =>
        lamps := lamps.(nsRed := true);
        lamps := lamps.(ewGreen := true);
      case 3 =>
        lamps := lamps.(nsRed := true);
        lamps := lamps.(ewYellow := true);
      case _ =>
        lamps := lamps.(nsRed := true);
        lamps := lamps.(ewRed := true);
    }

    /** Raise the flashing flag during the last seconds of a phase. The lamp
        toggling in its 250-tick branch is commented out in the source, so
        only the flag changes. */
    method HandleTrafficLightFlash()
      modifies this`isFlashing
      ensures isFlashing <==> 0 < timeLeft <= FlashStartTime
    {
      if timeLeft <= FlashStartTime && timeLeft > 0 {
        isFlashing := true;
      } else {
        isFlashing := false;
      }
    }

    /** Advance to the next phase, reload its time, drive its lamps, clear the
        flashing flag and pulse the state pin. */
    method SwitchToNextState()
      modifies this`currentState, this`timeLeft, this`lamps, this`isFlashing, this`debugState
      ensures Current() == Entered(NextState(old(currentState)))
      ensures lamps == LampsFor(currentState)
      ensures !isFlashing && !debugState
    {
      currentState := (currentState + 1) % 4;
      timeLeft := StateTimeTable[currentState];
      SetTrafficLights(currentState);
      isFlashing := false;
      debugState := true;
      debugState := false;
    }

    /** Reset the interrupt counters (the timer registers are not modelled). */
    method Timer0Init()
      modifies this`timer0Count, this`flashCount
      ensures timer0Count == 0 && flashCount == 0
    {
      timer0Count := 0;
      flashCount := 0;
    }

    /** One Timer0 interrupt, atomic because the handler masks interrupts:
        count the tick, toggle the heartbeat on the divider, and on the
        second event count down and change phase. */
    method Timer0Isr()
      requires Valid()
      modifies this`timer0Count, this`flashCount, this`debug1s, this`currentState,
               this`timeLeft, this`lamps, this`isFlashing, this`debugState
      ensures Valid()
      ensures flashCount == (old(flashCount) + 1) % 0x1_0000
      ensures timer0Count == NextCount(old(timer0Count))
      ensures debug1s != old(debug1s) <==> old(timer0Count) + 1 == TickDivider
      ensures old(timer0Count) + 1 == TickDivider ==> Current() == OnSecond(old(Current()))
      ensures old(timer0Count) + 1 < TickDivider ==> Current() == old(Current())
      ensures if old(timer0Count) + 1 == TickDivider && old(timeLeft) <= 1
              then lamps == LampsFor(currentState) && !isFlashing && !debugState
              else lamps == old(lamps) && isFlashing == old(isFlashing) && debugState == old(debugState)
    {
      timer0Count := (timer0Count + 1) % 0x1_0000;
      flashCount := (flashCount + 1) % 0x1_0000;
      if timer0Count % HeartbeatDivisor == 0 {
        debug1s := !debug1s;
      }
      if timer0Count >= TickDivider {
        timer0Count := 0;
        if timeLeft > 0 {
          timeLeft := timeLeft - 1;
        }
        if timeLeft == 0 {
          SwitchToNextState();
        }
      }
    }
  }
}
