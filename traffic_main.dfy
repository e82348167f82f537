/** The shadow-byte variant of smart_traffic/main.c: the six lamps are bits
    of port P2, built in the `trafficOutput` byte and copied to the port in
    one write; the flashing lamp is toggled by XOR; the Timer0 interrupt only
    counts and blinks a heartbeat. It shares its phase numbers, durations and
    duration table with the pin variant of the TrafficLight module. */
module TrafficMain {
  import opened Hw
  import TL = TrafficLight

  // Lamp bits of P2.
  const NsRedBit: bv8 := 0x01
  const NsYellowBit: bv8 := 0x02
  const NsGreenBit: bv8 := 0x04
  const EwRedBit: bv8 := 0x08
  const EwYellowBit: bv8 := 0x10
  const EwGreenBit: bv8 := 0x20

  const NsBits: bv8 := 0x07
  const EwBits: bv8 := 0x38
  const RedBits: bv8 := 0x09

  /** Interrupts between heartbeat toggles. */
  const HeartbeatPeriod: Word := 100
  /** Flash-counter period of the flashing toggle. */
  const FlashPeriod: Word := 250

  /** The lamps a P2 byte lights. */
  function Decode(b: bv8): Lamps
  {
    Lamps(b & NsRedBit != 0, b & NsYellowBit != 0, b & NsGreenBit != 0,
          b & EwRedBit != 0, b & EwYellowBit != 0, b & EwGreenBit != 0)
  }

  /** The byte SetTrafficLights builds for phase `state`. */
  function OutputFor(state: Byte): (r: bv8)
    ensures r & NsBits == NsRedBit || r & NsBits == NsYellowBit || r & NsBits == NsGreenBit
    ensures r & EwBits == EwRedBit || r & EwBits == EwYellowBit || r & EwBits == EwGreenBit
    ensures r & !(NsBits | EwBits) == 0
    ensures state >= 4 ==> r == NsRedBit | EwRedBit
  {
    match state
    case 0 => NsGreenBit | EwRedBit
    case 1 => NsYellowBit | EwRedBit
    case 2 => NsRedBit | EwGreenBit
    case 3 => NsRedBit | EwYellowBit
    case _ => NsRedBit | EwRedBit
  }

  /** The byte lights the same lamps the pin variant drives for every phase
      value, the all-red fallback included. */
  lemma OutputMatchesPinVariant(state: Byte)
    ensures Decode(OutputFor(state)) == TL.LampsFor(state)
  {
    // phases 0..3 case by case; any other value gives 0x09, both reds
  }

  /** The bit HandleTrafficLightFlash toggles: the green or yellow lamp of
      the head that is not red; nothing for a phase value out of range. */
  function FlashMask(state: Byte): (m: bv8)
    ensures state < 4 ==> m & OutputFor(state) == m && m != 0 && m & (m - 1) == 0
    ensures m & RedBits == 0
    ensures state >= 4 ==> m == 0
  {
    match state
    case 0 => NsGreenBit
    case 1 => NsYellowBit
    case 2 => EwGreenBit
    case 3 => EwYellowBit
    case _ => 0
  }

  /** A flash toggle never touches a red lamp, and two toggles restore the
      byte. */
  lemma FlashToggle(o: bv8, state: Byte)
    ensures (o ^ FlashMask(state)) & RedBits == o & RedBits
    ensures (o ^ FlashMask(state)) ^ FlashMask(state) == o
  {
  }

  /** `o` is the lamp byte of phase `state`, its flashing lamp on or off. */
  predicate ShowsPhase(o: bv8, state: Byte)
  {
    o == OutputFor(state) || o == OutputFor(state) ^ FlashMask(state)
  }

  /** Whether or not its flashing lamp is currently toggled off, a shadow
      byte lights exactly the red lamps of its phase. */
  lemma ShadowRedsMatchPhase(o: bv8, state: Byte)
    requires ShowsPhase(o, state)
    ensures Decode(o).nsRed == TL.LampsFor(state).nsRed
    ensures Decode(o).ewRed == TL.LampsFor(state).ewRed
  {
    OutputMatchesPinVariant(state);
    FlashToggle(OutputFor(state), state);
  }

  /** The globals of main.c and the pins it drives. */
  class Controller {
    var currentState: Byte
    var timeLeft: Byte
    var isFlashing: bool
    var timer0Count: Word
    var flashCount: Word
    var trafficOutput: bv8
    var p2: bv8
    var debug1s: bool
    var debugState: bool

    /** A valid phase with its countdown in range, and a shadow byte that is
        the phase's lamps with the flashing lamp either on or off (so its
        red bits are always the phase's). */
    ghost predicate Valid()
      reads this
    {
      && currentState < 4
      && 1 <= timeLeft <= TL.StateTimeTable[currentState]
      && ShowsPhase(trafficOutput, currentState)
    }

    /** The static initialisers followed by System_Init (with the counter
        reset of Timer0_Init): after the one-second lamp self-test, phase 0
        with its full time, lamps NS green and EW red. */
    constructor ()
      ensures Valid()
      ensures currentState == TL.StateNsGreenEwRed && timeLeft == TL.GreenLightTime && !isFlashing
      ensures trafficOutput == NsGreenBit | EwRedBit && p2 == trafficOutput
      ensures timer0Count == 0 && flashCount == 0
      ensures !debug1s && !debugState
    {
      currentState := TL.StateNsGreenEwRed;
      timeLeft := TL.GreenLightTime;
      isFlashing := false;
      timer0Count := 0;
      flashCount := 0;
      trafficOutput := 0x00;
      new;
      debug1s := false;
      debugState := false;
      p2 := 0x00;
      trafficOutput := 0x00;
      p2 := NsRedBit | NsYellowBit | NsGreenBit | EwRedBit | EwYellowBit | EwGreenBit;
      debug1s := true;
      debugState := true;
      p2 := 0x00;
      debug1s := false;
      debugState := false;
      trafficOutput := 0x00;
      currentState := TL.StateNsGreenEwRed;
      timeLeft := TL.StateTimeTable[currentState];
      isFlashing := false;
      SetTrafficLights(currentState);
      timer0Count := 0;
      flashCount := 0;
    }

    /** Rebuild the shadow byte for phase `state` and write it to P2 at once. */
    method SetTrafficLights(state: Byte)
      modifies this`trafficOutput, this`p2
      ensures trafficOutput == OutputFor(state) && p2 == trafficOutput
    {
      trafficOutput := 0x00;
      match state {
        case 0 => trafficOutput := NsGreenBit | EwRedBit;
        case 1 => trafficOutput := NsYellowBit | EwRedBit;
        case 2 => trafficOutput := NsRedBit | EwGreenBit;
        case 3 => trafficOutput := NsRedBit | EwYellowBit;
        case _ => trafficOutput := NsRedBit | EwRedBit;
      }
      p2 := trafficOutput;
    }

    /** In the last seconds of a phase raise the flashing flag and, when the
        flash counter is a multiple of 250, toggle the flashing lamp's bit
        and rewrite P2; otherwise clear the flag. */
    method HandleTrafficLightFlash()
      requires Valid()
      modifies this`isFlashing, this`trafficOutput, this`p2
      ensures Valid()
      ensures isFlashing <==> 0 < timeLeft <= TL.FlashStartTime
      ensures if 0 < timeLeft <= TL.FlashStartTime && flashCount % FlashPeriod == 0
              then trafficOutput == old(trafficOutput) ^ FlashMask(currentState) && p2 == trafficOutput
              else trafficOutput == old(trafficOutput) && p2 == old(p2)
    {
      if timeLeft <= TL.FlashStartTime && timeLeft > 0 {
        isFlashing := true;
        if flashCount % FlashPeriod == 0 {
          var mask: bv8 := 0x00;
          match currentState {
            case 0 => mask := NsGreenBit;
            case 1 => mask := NsYellowBit;
            case 2 => mask := EwGreenBit;
            case 3 => mask := EwYellowBit;
            case _ =>
          }
          trafficOutput := trafficOutput ^ mask;
          p2 := trafficOutput;
          FlashToggle(OutputFor(currentState), currentState);
        }
      } else {
        isFlashing := false;
      }
    }

    /** Advance to the next phase, reload its time, rebuild the lamps, clear
        the flashing flag and pulse the state pin. */
    method SwitchToNextState()
      requires Valid()
      modifies this`currentState, this`timeLeft, this`trafficOutput, this`p2, this`isFlashing, this`debugState
      ensures Valid()
      ensures currentState == TL.NextState(old(currentState))
      ensures timeLeft == TL.StateTimeTable[currentState]
      ensures trafficOutput == OutputFor(currentState) && p2 == trafficOutput
      ensures !isFlashing && !debugState
    {
      currentState := (currentState + 1) % 4;
      timeLeft := TL.StateTimeTable[currentState];
      SetTrafficLights(currentState);
      isFlashing := false;
      debugState := true;
      debugState := false;
    }

    /** One Timer0 interrupt: count, and every 100th count toggle the
        heartbeat and flip P2 between all-off and all-on. Phase, countdown,
        flag and shadow byte are outside its frame: in this variant the phase
        never advances. */
    method Timer0Isr()
      requires Valid()
      modifies this`timer0Count, this`flashCount, this`debug1s, this`p2
      ensures Valid()
      ensures timer0Count == (old(timer0Count) + 1) % 0x1_0000
      ensures flashCount == (old(flashCount) + 1) % 0x1_0000
      ensures if timer0Count % HeartbeatPeriod == 0
              then debug1s == !old(debug1s) && p2 == (if old(p2) == 0x00 then 0xFF else 0x00)
              else debug1s == old(debug1s) && p2 == old(p2)
    {
      timer0Count := (timer0Count + 1) % 0x1_0000;
      flashCount := (flashCount + 1) % 0x1_0000;
      if timer0Count % HeartbeatPeriod == 0 {
        debug1s := !debug1s;
        if p2 == 0x00 {
          p2 := 0xFF;
        } else {
          p2 := 0x00;
        }
      }
    }
  }

  /** After a heartbeat interrupt the port no longer shows the shadow byte:
      P2 holds all lamps on or all off, never a phase's lamp pair. */
  lemma HeartbeatOverwritesLamps(p2: bv8, state: Byte, flashed: bool)
    ensures var shadow := if flashed then OutputFor(state) ^ FlashMask(state) else OutputFor(state);
            var after: bv8 := if p2 == 0x00 then 0xFF else 0x00;
            after != shadow
  {
  }
}
