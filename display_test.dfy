/** The two-digit bench test of smart_traffic/test_display_simple.c: a
    common-anode segment table, a refresh loop that blanks the data port
    before every select change, and a main program cycling through four
    digit pairs. */
module DisplayTest {
  import opened Hw
  import Display
  import SimpleTraffic

  /** Common-anode segment patterns: the complements of the common-cathode
      ones, written `~0x3F` and so on and truncated to a byte. */
  const SegmentCode: seq<bv8> := [!0x3F, !0x06, !0x5B, !0x4F, !0x66, !0x6D, !0x7D, !0x07, !0x7F, !0x6F]

  /** The all-segments-off pattern of a common-anode display. */
  const Blank: bv8 := 0xFF

  /** Refresh pairs per Test_TwoDigits call. */
  const Refreshes: nat := 200

  /** The table is the bitwise complement of display.c's and equal to the
      digit table of simple_traffic.c, digit by digit. */
  lemma SegmentCodeMatchesOtherTables()
    ensures |SegmentCode| == |Display.SegmentTable| == |SimpleTraffic.DigitTable| == 10
    ensures forall d :: 0 <= d < 10 ==> SegmentCode[d] == !Display.SegmentTable[d]
    ensures forall d :: 0 <= d < 10 ==> SegmentCode[d] == SimpleTraffic.DigitTable[d]
    ensures forall d :: 0 <= d < 10 ==> SegmentCode[d] != Blank
  {
  }

  /** One half of a refresh: blank the port, drive the two select lines,
      then write the pattern. */
  function Half(a: bool, b: bool, pattern: bv8): seq<BusWrite>
  {
    [Data(Blank), Sel(A, a), Sel(B, b), Data(pattern)]
  }

  /** A half shows the blank under the old selection, then the pattern under
      the new one, and changes the selects only while the port is blank. */
  lemma HalfEffect(l: Levels, a: bool, b: bool, pattern: bv8)
    ensures Frames(l, Half(a, b, pattern)) == [l.(data := Blank), Levels(pattern, a, b, l.selC)]
    ensures Run(l, Half(a, b, pattern)) == Levels(pattern, a, b, l.selC)
    ensures Blanked(Blank, l, Half(a, b, pattern))
  {
    var t := Half(a, b, pattern);
    var l1 := Apply(l, t[0]);
    var l2 := Apply(l1, t[1]);
    var l3 := Apply(l2, t[2]);
    var l4 := Apply(l3, t[3]);
    assert t[1..][1..] == t[2..];
    assert t[2..][1..] == t[3..];
    assert t[3..][1..] == [];
    assert Run(l3, t[3..]) == l4 && Frames(l3, t[3..]) == [l4] && Blanked(Blank, l3, t[3..]);
    assert Run(l2, t[2..]) == l4 && Frames(l2, t[2..]) == [l4] && Blanked(Blank, l2, t[2..]);
    assert Run(l1, t[1..]) == l4 && Frames(l1, t[1..]) == [l4] && Blanked(Blank, l1, t[1..]);
  }

  /** One iteration of Test_TwoDigits: the left digit under (SEL_B, SEL_A) =
      (0, 0), then the right digit under (0, 1). */
  function RefreshPair(left: nat, right: nat): seq<BusWrite>
    requires left < 10 && right < 10
  {
    Half(false, false, SegmentCode[left]) + Half(true, false, SegmentCode[right])
  }

  /** What one refresh pair shows, in order, and that it is blanked from any
      starting levels. */
  lemma RefreshPairEffect(l: Levels, left: nat, right: nat)
    requires left < 10 && right < 10
    ensures Frames(l, RefreshPair(left, right))
         == [l.(data := Blank), Levels(SegmentCode[left], false, false, l.selC),
             Levels(Blank, false, false, l.selC), Levels(SegmentCode[right], true, false, l.selC)]
    ensures Run(l, RefreshPair(left, right)) == Levels(SegmentCode[right], true, false, l.selC)
    ensures Blanked(Blank, l, RefreshPair(left, right))
  {
    var h1 := Half(false, false, SegmentCode[left]);
    var h2 := Half(true, false, SegmentCode[right]);
    HalfEffect(l, false, false, SegmentCode[left]);
    HalfEffect(Run(l, h1), true, false, SegmentCode[right]);
    FramesAppend(l, h1, h2);
    RunAppend(l, h1, h2);
    BlankedAppend(Blank, l, h1, h2);
  }

  /** The writes of one Test_TwoDigits call. */
  function TwoDigitsWrites(left: nat, right: nat): seq<BusWrite>
    requires left < 10 && right < 10
  {
    Repeat(RefreshPair(left, right), Refreshes)
  }

  /** Exactly 200 pairs of eight writes, and never a select change while a
      pattern is on the port. */
  lemma TwoDigitsBlanked(l: Levels, left: nat, right: nat)
    requires left < 10 && right < 10
    ensures |TwoDigitsWrites(left, right)| == Refreshes * 8
    ensures Blanked(Blank, l, TwoDigitsWrites(left, right))
  {
    RepeatLength(RefreshPair(left, right), Refreshes);
    forall l': Levels
      ensures Blanked(Blank, l', RefreshPair(left, right))
    {
      RefreshPairEffect(l', left, right);
    }
    RepeatBlanked(Blank, RefreshPair(left, right), Refreshes, l);
  }

  /** Test_TwoDigits: 200 left/right refresh pairs. */
  method TwoDigits(bus: Bus, left: nat, right: nat)
    requires left < 10 && right < 10
    modifies bus
    ensures bus.trace == old(bus.trace) + TwoDigitsWrites(left, right)
  {
    var i: Byte := 0;
    while i < Refreshes
      invariant i <= Refreshes
      invariant bus.trace == old(bus.trace) + Repeat(RefreshPair(left, right), i)
    {
      ghost var before := bus.trace;
      WriteHalf(bus, false, false, SegmentCode[left]);
      WriteHalf(bus, true, false, SegmentCode[right]);
      assert bus.trace == before + RefreshPair(left, right);
      RepeatStep(old(bus.trace), RefreshPair(left, right), i as nat);
      i := i + 1;
    }
  }

  /** One half of the loop body: blank, drive SEL_A and SEL_B, write the
      pattern. */
  method WriteHalf(bus: Bus, a: bool, b: bool, pattern: bv8)
    modifies bus
    ensures bus.trace == old(bus.trace) + Half(a, b, pattern)
  {
    bus.Write(Data(Blank));
    bus.Write(Sel(A, a));
    bus.Write(Sel(B, b));
    bus.Write(Data(pattern));
  }

  /** The digit pairs main shows, in order. */
  const TestPairs: seq<(nat, nat)> := [(1, 2), (3, 4), (5, 6), (7, 8)]

  /** Every digit main passes is an index of the segment table. */
  lemma TestPairsAreDigits()
    ensures forall k :: 0 <= k < |TestPairs| ==> TestPairs[k].0 < 10 && TestPairs[k].1 < 10
  {
  }

  /** The writes of main before its endless loop. */
  function StartWrites(): seq<BusWrite>
  {
    [Data(Blank), Sel(A, false), Sel(B, false)]
  }

  /** The writes of one pass of main's endless loop. */
  function RoundWrites(): seq<BusWrite>
  {
    TwoDigitsWrites(1, 2) + TwoDigitsWrites(3, 4) + TwoDigitsWrites(5, 6) + TwoDigitsWrites(7, 8)
  }

  /** However many passes run, the whole program only changes selects while
      the port is blank. */
  lemma TestMainBlanked(l: Levels, rounds: nat)
    ensures Blanked(Blank, l, StartWrites() + Repeat(RoundWrites(), rounds))
  {
    var s := StartWrites();
    assert s[1..][1..] == s[2..];
    assert s[2..][1..] == [];
    assert Blanked(Blank, Apply(l, s[0]), s[1..]);
    forall l': Levels
      ensures Blanked(Blank, l', RoundWrites())
    {
      RoundBlanked(l');
    }
    RepeatBlanked(Blank, RoundWrites(), rounds, Run(l, s));
    BlankedAppend(Blank, l, s, Repeat(RoundWrites(), rounds));
  }

  lemma RoundBlanked(l: Levels)
    ensures Blanked(Blank, l, RoundWrites())
  {
    var w1, w2, w3, w4 := TwoDigitsWrites(1, 2), TwoDigitsWrites(3, 4), TwoDigitsWrites(5, 6), TwoDigitsWrites(7, 8);
    TwoDigitsBlanked(l, 1, 2);
    TwoDigitsBlanked(Run(l, w1), 3, 4);
    TwoDigitsBlanked(Run(l, w1 + w2), 5, 6);
    TwoDigitsBlanked(Run(l, w1 + w2 + w3), 7, 8);
    BlankedAppend(Blank, l, w1, w2);
    RunAppend(l, w1, w2);
    BlankedAppend(Blank, l, w1 + w2, w3);
    BlankedAppend(Blank, l, w1 + w2 + w3, w4);
  }

  lemma RepeatStep(t: seq<BusWrite>, p: seq<BusWrite>, n: nat)
    ensures t + Repeat(p, n + 1) == t + Repeat(p, n) + p
  {
  }

  lemma Concat4(t: seq<BusWrite>, a: seq<BusWrite>, b: seq<BusWrite>, c: seq<BusWrite>, d: seq<BusWrite>)
    ensures t + a + b + c + d == t + (a + b + c + d)
  {
  }

  /** main, run for `rounds` passes of its endless loop. */
  method TestMain(bus: Bus, rounds: nat)
    modifies bus
    ensures bus.trace == old(bus.trace) + StartWrites() + Repeat(RoundWrites(), rounds)
  {
    ghost var round := RoundWrites();
    Start(bus);
    ghost var start := bus.trace;
    assert Repeat(round, 0) == [] && start + [] == start;
    var r := 0;
    while r < rounds
      invariant r <= rounds
      invariant bus.trace == start + Repeat(round, r)
    {
      Round(bus);
      RepeatStep(start, round, r);
      r := r + 1;
    }
  }

  /** The start of main: blank the port and deselect both digits. */
  method Start(bus: Bus)
    modifies bus
    ensures bus.trace == old(bus.trace) + StartWrites()
  {
    bus.Write(Data(Blank));
    bus.Write(Sel(A, false));
    bus.Write(Sel(B, false));
  }

  /** One pass of main's endless loop: the four pairs in order. */
  method Round(bus: Bus)
    modifies bus
    ensures bus.trace == old(bus.trace) + RoundWrites()
  {
    TwoDigits(bus, 1, 2);
    TwoDigits(bus, 3, 4);
    TwoDigits(bus, 5, 6);
    TwoDigits(bus, 7, 8);
    Concat4(old(bus.trace), TwoDigitsWrites(1, 2), TwoDigitsWrites(3, 4), TwoDigitsWrites(5, 6), TwoDigitsWrites(7, 8));
  }
}
