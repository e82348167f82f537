# Traffic-light controller variants for the 8051

This project models, in Dafny, the controller logic of a small two-direction
traffic light written in C for an 8051 microcontroller. The repository holds
several near-duplicate versions, and each keeps its own globals. Each version
is one Dafny module:

| module | source | what it is |
|---|---|---|
| `Hw` | (shared) | C51 widths (`Byte` = `unsigned char`, `Word` = 16-bit `unsigned int`), the six lamps, and the digit display seen as a log of writes |
| `TrafficLight` | `smart_traffic/traffic_light.c` | four-phase machine driven by the Timer0 interrupt, with one pin per lamp |
| `TrafficMain` | `smart_traffic/main.c` | the same phases built as a shadow byte for port P2, with a XOR flash toggle and a heartbeat-only interrupt |
| `SimpleTraffic` | `simple_traffic.c` | polled four-phase machine with its own phase numbering, a 500-pass second, manual pause, edge-latched keys and a two-digit display |
| `Display` | `smart_traffic/display.c` | three-select display driver for a common-cathode display |
| `DisplayTest` | `smart_traffic/test_display_simple.c` | bench test of a blanked two-digit refresh on a common-anode display |
| `WorkingMain` | `smart_traffic/main_working_version.c` | two-phase, five-second machine fed by a 1000-tick interrupt flag |

How the source becomes Dafny:

- Globals that the C code updates in place become fields of a `Controller`
  class, one per version. Each C function becomes a method with a `modifies`
  clause. The method is proved against a pure specification function, and
  lemmas state the properties of that function.
- Static locals (`keyState1`, `keyState2`) and the persistent locals of
  endless loops (`counter`, `testCounter`) are fields too.
- An interrupt handler is one atomic method. The handlers of
  `smart_traffic/traffic_light.c` (lines 203-204) and `smart_traffic/main.c`
  (lines 153-154) mask interrupts while they run. The handler of
  `smart_traffic/main_working_version.c` never clears `EA`, but Timer0 is the
  only interrupt source it enables (`ET0` at line 71, high priority at line
  72; `IE0` at line 74 is external interrupt 0's request flag, not its
  enable), and an 8051 handler cannot be interrupted by a source of the same
  or lower priority.
- Lamp pins are a `Lamps` value. `main.c` keeps its P2 byte as a `bv8`.
- Display writes are appended to the `trace` of a `Bus` object. `Run` gives
  the levels on the pins after a trace. `Frames` gives the levels latched by
  each data write, which is what each digit dwell shows. `Blanked` states the
  anti-ghosting rule: no select line changes while a pattern is on the data
  port.
- The widths of C integers are explicit. Increments of 16-bit counters are
  taken `% 0x1_0000`, and the emergency bonus is taken `% 0x100`.

Where the versions differ from each other or from their own comments, the
model follows the code:

- `smart_traffic/display.c` changes selects with a pattern on the data port,
  which `Display.ShowTimeDoesNotBlank` proves. `smart_traffic/test_display_simple.c`
  writes the blank 0xFF first, as its comments at lines 47 and 54 say.
- `simple_traffic.c` adds 30 s to its one countdown (line 211) in an
  `unsigned char`, so the sum wraps past 255.
- `simple_traffic.c` numbers its phases differently from
  `smart_traffic/traffic_light.c`: its phase 0 is NS red / EW green (line 31),
  where the other's phase 0 is NS green / EW red. `SimpleTraffic.Recode` maps
  one numbering onto the other.
- `smart_traffic/traffic_light.c` divides interrupts into seconds with 33
  (line 219), not the 500 that its comments at lines 194 and 218 give.
- The display writes of `simple_traffic.c` are logged on the `Bus` like the
  others. `Run` and `Frames` read them on a display whose segment port is
  apart from its selects. `SimpleTraffic.RunP2` and `SimpleTraffic.FramesP2`
  read the same writes on the wiring the file declares, where the segment
  port is all of P2 and SEL_A and SEL_B are P2.6 and P2.7 (see Findings).

## Model

| member | source | states |
|---|---|---|
| TrafficLight.NextState | smart_traffic/traffic_light.c:136 | the successor phase is always in 0..3; it is s+1 below 3, and 3 wraps to 0 |
| TrafficLight.NextStateIterCycles | smart_traffic/traffic_light.c:136 | from a valid phase, k switches move k places round the cycle |
| TrafficLight.FourChangesReturn | smart_traffic/traffic_light.c:136 | four switches return every valid phase to itself, and one to three switches never do |
| TrafficLight.LampsFor | smart_traffic/traffic_light.c:55-89 | every phase value lights one lamp per head, with at least one head red; for 0..3 the lit green or yellow lamp is the one the phase name says; any other value lights only the two reds |
| TrafficLight.Controller.SetTrafficLights | smart_traffic/traffic_light.c:55-89 | the lamps afterwards depend only on the phase: all six are cleared first, so no lamp of the previous phase survives |
| TrafficLight.Controller.HandleTrafficLightFlash | smart_traffic/traffic_light.c:97-126 | the flashing flag is set exactly when 0 < timeLeft <= 3; nothing else changes, because the lamp toggles are commented out |
| TrafficLight.Controller.SwitchToNextState | smart_traffic/traffic_light.c:133-150 | the next phase with its table time, that phase's lamps, the flag cleared and the state pin back low |
| TrafficLight.Controller.Timer0Init | smart_traffic/traffic_light.c:161-185 | both interrupt counters are reset |
| TrafficLight.Controller.constructor | smart_traffic/traffic_light.c:14-18 | the globals start in phase 0 with 25 s; the pins keep their reset levels |
| TrafficLight.OnSecond | smart_traffic/traffic_light.c:222-230 | a second event counts down a countdown above 1; a countdown of 1 or less enters the next phase with its table time; the result is never 0 |
| TrafficLight.PhaseLastsItsCount | smart_traffic/traffic_light.c:222-230 | a phase entered with d seconds keeps its number and counts down for d-1 second events, and changes on the d-th |
| TrafficLight.EachPhaseLastsItsTableTime | smart_traffic/traffic_light.c:21-26 | each phase lasts exactly its table entry in second events |
| TrafficLight.DividerCounts | smart_traffic/traffic_light.c:207-220 | from reset the tick counter reads k mod 33 after k interrupts, so a second event comes every 33rd interrupt |
| TrafficLight.Controller.Timer0Isr | smart_traffic/traffic_light.c:196-236 | the handler keeps the countdown in 1..table time and the counter below 33; the heartbeat toggles exactly on second events; on a second event the phase follows OnSecond, and otherwise it is unchanged |
| TrafficMain.OutputFor | smart_traffic/main.c:64-86 | the P2 byte has exactly one NS bit and one EW bit and no other bit; the default is NS red + EW red |
| TrafficMain.OutputMatchesPinVariant | smart_traffic/main.c:64-86 | for every phase value, the byte lights exactly the lamps the pin variant drives |
| TrafficMain.FlashMask | smart_traffic/main.c:97-104 | the toggled bit is a single lamp bit of the phase's byte and never a red bit; out-of-range phases toggle nothing |
| TrafficMain.FlashToggle | smart_traffic/main.c:106 | a toggle leaves the red bits alone, and two toggles restore the byte |
| TrafficMain.ShadowRedsMatchPhase | smart_traffic/main.c:91-112 | with the flashing lamp on or off, the shadow byte lights exactly the phase's red lamps |
| TrafficMain.Controller.SetTrafficLights | smart_traffic/main.c:64-86 | the shadow byte is rebuilt from the phase alone and copied to P2 in one write |
| TrafficMain.Controller.HandleTrafficLightFlash | smart_traffic/main.c:91-112 | the flag is set exactly when 0 < timeLeft <= 3; when the flash counter is a multiple of 250, the phase's flashing bit is XOR-toggled and P2 is rewritten; the shadow byte stays a picture of the phase |
| TrafficMain.Controller.SwitchToNextState | smart_traffic/main.c:117-126 | the next phase, its table time, its byte on P2, and the flag cleared |
| TrafficMain.Controller.Timer0Isr | smart_traffic/main.c:150-171 | both counters step with 16-bit wrap; every 100th count toggles the heartbeat and flips P2 between 0x00 and 0xFF; phase, countdown, flag and shadow byte are outside its frame, so the phase never advances |
| TrafficMain.HeartbeatOverwritesLamps | smart_traffic/main.c:160-167 | after a heartbeat flip, P2 never holds the phase's lamp byte |
| TrafficMain.Controller.constructor | smart_traffic/main.c:176-207 | after the self-test: phase 0, 25 s, flag clear, shadow byte NS green + EW red, equal to P2 |
| Display.SegmentTableDistinct | smart_traffic/display.c:14-25 | the ten patterns are pairwise distinct and none is dark |
| Display.DecodeSegment | smart_traffic/display.c:14-25 | a decoded pattern is the table entry of its digit, and a pattern outside the table decodes to nothing |
| Display.DecodeSegmentRoundTrip | smart_traffic/display.c:14-25 | every written pattern decodes back to its digit |
| Display.TensDigit | smart_traffic/display.c:50-51 | the tens digit is an index into the table; below 100 it is the true tens digit, and from 100 up it is clamped to 9 |
| Display.InitLeavesDark | smart_traffic/display.c:32-39 | from any levels, the display is left dark with every select low |
| Display.DisplayInit | smart_traffic/display.c:32-39 | appends the init writes in source order, after which the pins read a dark data port with every select low |
| Display.PulseEffect | smart_traffic/display.c:49-54 | one digit dwell shows its pattern with its own select high, and drops that select with the pattern still on the port |
| Display.ShowTimeFrames | smart_traffic/display.c:44-69 | NS tens under SEL_A, NS units under SEL_B, EW tens under SEL_C, in that order; every select is low at the end |
| Display.ShowTimeShowsNsTime | smart_traffic/display.c:48-60 | a north-south time below 100 is shown exactly: the two patterns decode to its digits |
| Display.EwUnitsNotShown | smart_traffic/display.c:62-68 | the east-west units digit never reaches the display |
| Display.ShowTimeDoesNotBlank | smart_traffic/display.c:52-54 | the pass changes a select while a pattern is on the port |
| Display.ShowDigit | smart_traffic/display.c:49-54 | one dwell appends select high, the pattern, select low, in that order |
| Display.ShowTime | smart_traffic/display.c:44-69 | appends exactly the three dwells, with clamped table indices |
| DisplayTest.SegmentCodeMatchesOtherTables | smart_traffic/test_display_simple.c:18-21 | each code is the 8-bit complement of the display.c pattern, equals simple_traffic.c's pattern, and is not blank |
| DisplayTest.HalfEffect | smart_traffic/test_display_simple.c:47-51 | one half shows the blank, then the pattern under the new selects, and changes selects only while the port is blank |
| DisplayTest.RefreshPairEffect | smart_traffic/test_display_simple.c:46-58 | the left digit is shown under (SEL_B, SEL_A) = (0, 0) and the right under (0, 1), each after a blank; the pair is blanked from any levels |
| DisplayTest.TwoDigitsBlanked | smart_traffic/test_display_simple.c:45-59 | 200 refresh pairs of eight writes, never changing a select while a pattern is on the port |
| DisplayTest.WriteHalf | smart_traffic/test_display_simple.c:47-50 | one half appends the blank, both selects, then the pattern |
| DisplayTest.TwoDigits | smart_traffic/test_display_simple.c:40-60 | the loop appends exactly 200 refresh pairs |
| DisplayTest.TestPairsAreDigits | smart_traffic/test_display_simple.c:71-83 | every digit the test passes is a valid table index |
| DisplayTest.RoundBlanked | smart_traffic/test_display_simple.c:71-83 | one pass over (1,2), (3,4), (5,6), (7,8) is blanked from any levels |
| DisplayTest.TestMainBlanked | smart_traffic/test_display_simple.c:62-84 | any number of passes, after the start writes, is blanked |
| DisplayTest.Start | smart_traffic/test_display_simple.c:65-67 | the port blanked, then both selects low |
| DisplayTest.Round | smart_traffic/test_display_simple.c:72-82 | the four pairs, in the order main calls them |
| DisplayTest.TestMain | smart_traffic/test_display_simple.c:62-84 | the start writes, then the four pairs in order, once per pass |
| SimpleTraffic.DigitTableDistinct | simple_traffic.c:48-51 | the ten patterns are pairwise distinct and none is blank |
| SimpleTraffic.SetLeds | simple_traffic.c:119-158 | each phase lights the same lamps as the pin variant's phase two places on, so one lamp per head with one head red; an out-of-range phase leaves the LEDs unchanged |
| SimpleTraffic.Transition | simple_traffic.c:163-186 | a valid phase moves one step round the same cycle as the pin variant; it loads 5 s exactly when the new phase shows a yellow lamp, and 25 s otherwise; an out-of-range phase leaves state and time alone |
| SimpleTraffic.TransitionCycles | simple_traffic.c:163-186 | k transitions track k pin-variant switches, and the phase stays valid |
| SimpleTraffic.FourTransitionsReturn | simple_traffic.c:163-186 | every phase recurs after exactly four transitions, and not after one to three |
| SimpleTraffic.Digits | simple_traffic.c:98-101 | tens and units are digits, and tens*10 + units == min(num, 99) |
| SimpleTraffic.LatchStep | simple_traffic.c:197-205 | the latch follows the pin, and the key acts exactly when the pin is low while the latch is set |
| SimpleTraffic.FiresOnFallingEdges | simple_traffic.c:197-205 | over any run of samples, a key acts exactly once per falling edge of its pin |
| SimpleTraffic.ScanKeys | simple_traffic.c:191-218 | a mode press toggles manual mode; an emergency press sets the emergency flag and adds 30 s, wrapping past 255; the phase and pass counter are untouched |
| SimpleTraffic.HeldKeysActOnce | simple_traffic.c:197-217 | a second scan with the same pin levels changes nothing |
| SimpleTraffic.Second | simple_traffic.c:244-258 | manual mode changes nothing; automatic mode counts down, or at zero transitions and clears the emergency flag |
| SimpleTraffic.ManualFreezes | simple_traffic.c:244 | in manual mode, phase and countdown stay fixed for any number of seconds |
| SimpleTraffic.PhaseLastsOneSecondMore | simple_traffic.c:245-257 | in automatic mode a countdown of d shows d down to 0, and the phase changes on the (d+1)-th second |
| SimpleTraffic.CountStep | simple_traffic.c:240-259 | the pass counter stays below 500; the 500th pass runs a second event and resets the counter |
| SimpleTraffic.SecondEvery500Passes | simple_traffic.c:240-242 | from a reset counter, a second event comes on exactly the 500th pass and not before |
| SimpleTraffic.SecondsEvery500Passes | simple_traffic.c:240-242 | from a reset counter, after any `k` passes exactly `k / 500` second events have run and the counter reads `k % 500`, so a second comes on every 500th pass |
| SimpleTraffic.ShowNumberOnP2 | simple_traffic.c:103-113 | as written, running the six writes on P2 leaves the bare tens pattern on P2 during the first dwell and the bare units pattern during the second, whatever P2 held before; the select writes do not survive |
| SimpleTraffic.ShowNumberSelectsClobbered | simple_traffic.c:104-113 | as written, there are two dwells and SEL_B (P2.7) reads high in both, although the code drives it low before each |
| SimpleTraffic.ShowNumberTwelve | simple_traffic.c:104-113 | as written, showing 12 leaves P2 at 0xF9 and then 0xA4, so (SEL_B, SEL_A) = (1, 1) and (1, 0) on the two dwells |
| SimpleTraffic.InitOnP2 | simple_traffic.c:78-80 | as written, System_Init leaves P2 at 0x3F, not the blank 0xFF, whatever P2 held before |
| SimpleTraffic.InitLeavesBlank | simple_traffic.c:78-81 | with the segment port apart from the selects, the init writes leave the port blank and every select low, from any levels |
| SimpleTraffic.ShowNumberFrames | simple_traffic.c:103-113 | with the data port apart from the selects, the tens digit is shown under (0, 0) and the units under (0, 1), and they are the digits of min(num, 99) |
| SimpleTraffic.ShowNumber | simple_traffic.c:94-114 | appends the two clamped digit dwells |
| SimpleTraffic.Controller.constructor | simple_traffic.c:42-45 | phase 0 with 25 s, automatic mode, no emergency, both latches released, counter 0 |
| SimpleTraffic.Controller.SystemInit | simple_traffic.c:67-89 | the LEDs of phase 0, the four display writes in source order (the pins then read a blank port with every select low, on the separate-port wiring), and phase 0 with 25 s |
| SimpleTraffic.Controller.KeyScan | simple_traffic.c:191-218 | the globals and latches become ScanKeys of their old values |
| SimpleTraffic.Controller.SetLEDs | simple_traffic.c:119-158 | the LEDs become SetLeds of the phase |
| SimpleTraffic.Controller.StateTransition | simple_traffic.c:163-186 | phase and countdown become Transition of their old values |
| SimpleTraffic.Controller.CountPass | simple_traffic.c:240-259 | counter, countdown, phase and emergency flag become CountStep of their old values, and the phase stays valid |
| SimpleTraffic.Controller.MainLoopStep | simple_traffic.c:229-262 | one pass: keys scanned, the scanned countdown displayed, the old phase's LEDs driven, the counter stepped; the phase stays valid, the counter below 500 and the lamps safe |
| WorkingMain.WorkingLamps | smart_traffic/main_working_version.c:110-122 | phase 0 lights NS green + EW red, any other phase NS red + EW green; these are the pin variant's phases 0 and 2, and no yellow is ever lit |
| WorkingMain.Flip | smart_traffic/main_working_version.c:110-122 | the swap always lands in 0..1, differs from its input, and is an involution on 0..1 |
| WorkingMain.IsrStep | smart_traffic/main_working_version.c:24-28 | the tick counter stays below 1000; the 1000th tick resets it and raises the flag |
| WorkingMain.FlagEvery1000Ticks | smart_traffic/main_working_version.c:24-28 | from reset, the flag stays clear for 999 ticks and rises on the 1000th |
| WorkingMain.TicksEvery1000 | smart_traffic/main_working_version.c:24-28 | from reset, after any `k` interrupts the counter reads `k % 1000`, and the flag (cleared only by the main loop) is raised exactly when `k >= 1000` |
| WorkingMain.OnSecond | smart_traffic/main_working_version.c:104-123 | a countdown above 1 is decremented; at 1 or 0 the phase swaps and 5 s is reloaded; the result is never 0 |
| WorkingMain.PhaseLastsFiveSeconds | smart_traffic/main_working_version.c:104-123 | a phase entered with 5 s counts down for four flags and swaps on the fifth |
| WorkingMain.LoopStep | smart_traffic/main_working_version.c:92-96 | the pass counter stays below 50000 and resets on the 50000th pass |
| WorkingMain.BlinkEvery50000Passes | smart_traffic/main_working_version.c:92-96 | from zero, the pass counter reads k mod 50000 after k passes |
| WorkingMain.Controller.constructor | smart_traffic/main_working_version.c:11-14 | counter 0, flag clear, phase 0 with 5 s |
| WorkingMain.Controller.SystemInit | smart_traffic/main_working_version.c:43-84 | after the self-test, phase 0 with 5 s, only NS green and EW red lit, both debug pins off |
| WorkingMain.Controller.Timer0Isr | smart_traffic/main_working_version.c:17-29 | counter and flag become IsrStep of their old values |
| WorkingMain.Controller.CountPass | smart_traffic/main_working_version.c:92-96 | the pass counter becomes LoopStep of its old value, and the liveness pin toggles exactly when the 16-bit increment reaches 50000 |
| WorkingMain.Controller.HandleSecond | smart_traffic/main_working_version.c:99-124 | a pending flag is cleared and toggles the state pin; the countdown follows OnSecond; the lamps keep matching the phase; without a flag nothing changes |
| WorkingMain.Controller.MainLoopStep | smart_traffic/main_working_version.c:87-126 | the liveness pin toggles exactly on the 50000th pass; a pending flag is consumed once; the countdown follows OnSecond and the state pin toggles; the lamps always match the phase; the countdown stays in 1..5 |

## Left out

- Timer register set-up and reloads (TMOD, TH0/TL0, TF0, ET0, PT0, EA, TR0) are not modelled. Each interrupt handler is one atomic step.
- Busy-wait delays are not modelled. They only encode elapsed time.
- The buzzer in `simple_traffic.c` is not modelled. Key presses and the last five seconds only pulse it, and its level is restored.
- `Key_Scan` reads each key pin up to twice (once when the press branch is taken). The model takes one sample per call, so a pin changing between the two reads is not covered.
- `smart_traffic/main_working_version.c` is modelled with whole interrupt steps between whole main-loop passes. An interrupt landing between the flag test and its clearing is not modelled.
- The empty endless loop of `main` in `smart_traffic/main.c` is not modelled. Its interrupt-driven behaviour is `TrafficMain.Controller.Timer0Isr`.
- Pins from reset are not modelled as specific levels. Constructors take them as parameters.
- The unused statics of `smart_traffic/traffic_light.c` are not modelled, and neither is the unused `TIME_RED` of `simple_traffic.c`.
- A setting mode, a derived wait time for the red direction and counter-based debouncing are not modelled. None of the modelled files implements them.
- SimpleTraffic.CountStep: its contract does not describe a counter of 65535, which would wrap to 0 with no second event. The loop keeps the counter below 500.
- WorkingMain.IsrStep: its contract does not describe a counter of 65535, which would wrap to 0 with the flag untouched. The handler keeps the counter below 1000.
- WorkingMain.LoopStep: its contract does not describe a counter of 65535, which would wrap to 0. The loop keeps it below 50000.
- SimpleTraffic.Controller.SystemInit: the levels its contract states are those of the separate-port wiring (blank, every select low, `InitLeavesBlank`). On the P2 wiring as written the same writes leave 0x3F (`InitOnP2`).
- SimpleTraffic.Controller.MainLoopStep: its contract gives the display writes of `Display_ShowNumber`, not the levels. The digits are shown under the intended selects only on the corrected wiring (`ShowNumberFrames`). On the P2 wiring as written, see `ShowNumberOnP2`.

## Findings

| source | as written | input that shows it | evidently intended | confidence | as-written member | corrected member |
|---|---|---|---|---|---|---|
| simple_traffic.c:25-27,104-112 | The segment data port is all of P2, but SEL_A and SEL_B are bits 6 and 7 of P2. Each pattern write overwrites the select levels just set, and every pattern has bit 7 set. | `Display_ShowNumber(12)`: the tens dwell has (SEL_B, SEL_A) = (1, 1) and the units dwell (1, 0). | Tens under (0, 0) and units under (0, 1), with the selects apart from the data port. The test file does this by moving data to P1. | high (not executed) | SimpleTraffic.ShowNumberOnP2, SimpleTraffic.ShowNumberSelectsClobbered, SimpleTraffic.ShowNumberTwelve | SimpleTraffic.ShowNumberWrites, SimpleTraffic.ShowNumberFrames, SimpleTraffic.ShowNumber |
| simple_traffic.c:25-27,78-80 | System_Init writes the blank 0xFF to P2 and then clears SEL_A and SEL_B, which are bits 6 and 7 of that same byte. | Any earlier P2: afterwards P2 = 0x3F, which lights segment g and the decimal point of a common-anode digit. | A blank port (0xFF) with every select low, with the selects apart from the data port. | high (not executed) | SimpleTraffic.InitOnP2 | SimpleTraffic.InitLeavesBlank, SimpleTraffic.Controller.SystemInit |
