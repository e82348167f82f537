/** The three-select digit display driver of smart_traffic/display.c: a
    common-cathode segment table, the port initialisation, and the refresh
    pass that shows the north-south time on two digits and the east-west
    tens on a third. */
module Display {
  import opened Hw

  /** Common-cathode segment patterns of the digits 0 to 9. */
  const SegmentTable: seq<bv8> := [0x3F, 0x06, 0x5B, 0x4F, 0x66, 0x6D, 0x7D, 0x07, 0x7F, 0x6F]

  /** The all-segments-off pattern of a common-cathode display. */
  const Dark: bv8 := 0x00

  /** The ten patterns are pairwise distinct and none of them is dark. */
  lemma SegmentTableDistinct()
    ensures |SegmentTable| == 10
    ensures forall i, j :: 0 <= i < j < 10 ==> SegmentTable[i] != SegmentTable[j]
    ensures forall i :: 0 <= i < 10 ==> SegmentTable[i] != Dark
  {
  }

  /** The digit a pattern shows, if it is one of the table's. */
  function DecodeSegment(v: bv8): (r: Option)
    ensures r.Some? ==> r.digit < 10 && SegmentTable[r.digit] == v
    ensures r.None? ==> v !in SegmentTable
  {
    FindPattern(v, 0)
  }

  datatype Option = None | Some(digit: nat)

  function FindPattern(v: bv8, from: nat): (r: Option)
    requires from <= 10
    ensures r.Some? ==> from <= r.digit < 10 && SegmentTable[r.digit] == v
    ensures r.None? ==> forall i :: from <= i < 10 ==> SegmentTable[i] != v
    decreases 10 - from
  {
    if from == 10 then None
    else if SegmentTable[from] == v then Some(from)
    else FindPattern(v, from + 1)
  }

  /** A written pattern decodes back to its digit. */
  lemma DecodeSegmentRoundTrip(d: nat)
    requires d < 10
    ensures DecodeSegment(SegmentTable[d]) == Some(d)
  {
    SegmentTableDistinct();
  }

  /** The tens digit Display_ShowTime looks up: `x / 10`, clamped to 9. */
  function TensDigit(x: Byte): (d: nat)
    ensures d < 10
    ensures x < 100 ==> d * 10 <= x < d * 10 + 10
    ensures x >= 100 ==> d == 9
  {
    var q := x / 10;
    if q > 9 then 9 else q
  }

  /** The writes of Display_Init: dark data port, every select low. */
  function InitWrites(): seq<BusWrite>
  {
    [Data(Dark), Sel(A, false), Sel(B, false), Sel(C, false)]
  }

  /** Whatever the hardware held, Display_Init leaves it dark and deselected. */
  lemma InitLeavesDark(l: Levels)
    ensures Run(l, InitWrites()) == Levels(Dark, false, false, false)
  {
    // data := Dark, then selA, selB and selC := false, one write at a time
  }

  /** One digit of Display_ShowTime: raise the digit's select, write its
      pattern, and after the dwell drop the select. */
  function Pulse(x: Line, pattern: bv8): seq<BusWrite>
  {
    [Sel(x, true), Data(pattern), Sel(x, false)]
  }

  /** A pulse shows `pattern` with its own select raised and leaves that
      select low and the pattern on the port; a visible pattern is still on
      the port when the select drops. */
  lemma PulseEffect(l: Levels, x: Line, pattern: bv8)
    ensures Frames(l, Pulse(x, pattern)) == [l.Drive(x, true).(data := pattern)]
    ensures Run(l, Pulse(x, pattern)) == l.Drive(x, false).(data := pattern)
    ensures pattern != Dark ==> !Blanked(Dark, l, Pulse(x, pattern))
  {
    var t := Pulse(x, pattern);
    var l1 := Apply(l, t[0]);
    var l2 := Apply(l1, t[1]);
    var l3 := Apply(l2, t[2]);
    assert t[1..][1..] == t[2..];
    assert t[2..][1..] == [];
    assert Run(l2, t[2..]) == l3;
    assert Frames(l2, t[2..]) == [];
    assert Frames(l1, t[1..]) == [l2];
    if pattern != Dark {
      assert l2.data == pattern;
      assert !Blanked(Dark, l2, t[2..]);
      assert !Blanked(Dark, l1, t[1..]);
    }
  }

  /** The writes of one Display_ShowTime pass. */
  function ShowTimeWrites(nsTime: Byte, ewTime: Byte): seq<BusWrite>
  {
    Pulse(A, SegmentTable[TensDigit(nsTime)])
      + Pulse(B, SegmentTable[nsTime % 10])
      + Pulse(C, SegmentTable[TensDigit(ewTime)])
  }

  /** The three digits shown, in order: north-south tens under SEL_A,
      north-south units under SEL_B, east-west tens under SEL_C; and every
      select is low again at the end. */
  lemma ShowTimeFrames(l: Levels, nsTime: Byte, ewTime: Byte)
    ensures Frames(l, ShowTimeWrites(nsTime, ewTime))
         == [Levels(SegmentTable[TensDigit(nsTime)], true, l.selB, l.selC),
             Levels(SegmentTable[nsTime % 10], false, true, l.selC),
             Levels(SegmentTable[TensDigit(ewTime)], false, false, true)]
    ensures Run(l, ShowTimeWrites(nsTime, ewTime))
         == Levels(SegmentTable[TensDigit(ewTime)], false, false, false)
  {
    ThreePulses(l, SegmentTable[TensDigit(nsTime)], SegmentTable[nsTime % 10], SegmentTable[TensDigit(ewTime)]);
  }

  /** Pulsing SEL_A, SEL_B and SEL_C in turn shows the three patterns in
      that order. */
  lemma ThreePulses(l: Levels, a: bv8, b: bv8, c: bv8)
    ensures Frames(l, Pulse(A, a) + Pulse(B, b) + Pulse(C, c))
         == [Levels(a, true, l.selB, l.selC), Levels(b, false, true, l.selC), Levels(c, false, false, true)]
    ensures Run(l, Pulse(A, a) + Pulse(B, b) + Pulse(C, c)) == Levels(c, false, false, false)
  {
    var ab, pc := Pulse(A, a) + Pulse(B, b), Pulse(C, c);
    var l2 := Levels(b, false, false, l.selC);
    TwoPulses(l, a, b);
    PulseEffect(l2, C, c);
    assert Frames(l2, pc) == [Levels(c, false, false, true)];
    FramesAppend(l, ab, pc);
    RunAppend(l, ab, pc);
  }

  /** The first two pulses of a pass. */
  lemma TwoPulses(l: Levels, a: bv8, b: bv8)
    ensures Frames(l, Pulse(A, a) + Pulse(B, b)) == [Levels(a, true, l.selB, l.selC), Levels(b, false, true, l.selC)]
    ensures Run(l, Pulse(A, a) + Pulse(B, b)) == Levels(b, false, false, l.selC)
  {
    var pa, pb := Pulse(A, a), Pulse(B, b);
    var l1 := Levels(a, false, l.selB, l.selC);
    PulseEffect(l, A, a);
    PulseEffect(l1, B, b);
    assert Frames(l, pa) == [Levels(a, true, l.selB, l.selC)] && Run(l, pa) == l1;
    assert Frames(l1, pb) == [Levels(b, false, true, l.selC)];
    FramesAppend(l, pa, pb);
    RunAppend(l, pa, pb);
  }

  /** A north-south time below 100 is shown exactly: its two displayed
      patterns decode to digits that make up the time again. */
  lemma ShowTimeShowsNsTime(l: Levels, nsTime: Byte, ewTime: Byte)
    requires nsTime < 100
    ensures var f := Frames(l, ShowTimeWrites(nsTime, ewTime));
            |f| == 3 && DecodeSegment(f[0].data).Some? && DecodeSegment(f[1].data).Some?
            && DecodeSegment(f[0].data).digit * 10 + DecodeSegment(f[1].data).digit == nsTime
  {
    ShowTimeFrames(l, nsTime, ewTime);
    DecodeSegmentRoundTrip(TensDigit(nsTime));
    DecodeSegmentRoundTrip(nsTime % 10);
  }

  /** The east-west units digit never reaches the display: two east-west
      times with the same (clamped) tens digit produce the same writes. */
  lemma EwUnitsNotShown(nsTime: Byte, ewTime: Byte, ewTime': Byte)
    requires TensDigit(ewTime) == TensDigit(ewTime')
    ensures ShowTimeWrites(nsTime, ewTime) == ShowTimeWrites(nsTime, ewTime')
  {
  }

  /** The pass drops each select while its digit's pattern is still on the
      data port: it does not blank the port before a select change. */
  lemma ShowTimeDoesNotBlank(l: Levels, nsTime: Byte, ewTime: Byte)
    ensures !Blanked(Dark, l, ShowTimeWrites(nsTime, ewTime))
  {
    SegmentTableDistinct();
    var pa := Pulse(A, SegmentTable[TensDigit(nsTime)]);
    var rest := Pulse(B, SegmentTable[nsTime % 10]) + Pulse(C, SegmentTable[TensDigit(ewTime)]);
    PulseEffect(l, A, SegmentTable[TensDigit(nsTime)]);
    assert ShowTimeWrites(nsTime, ewTime) == pa + rest;
    BlankedAppend(Dark, l, pa, rest);
  }

  /** Display_Init. */
  method DisplayInit(bus: Bus)
    modifies bus
    ensures bus.trace == old(bus.trace) + InitWrites()
    ensures bus.Current() == Levels(Dark, false, false, false)
  {
    ghost var before := bus.trace;
    bus.Write(Data(Dark));
    bus.Write(Sel(A, false));
    bus.Write(Sel(B, false));
    bus.Write(Sel(C, false));
    RunAppend(bus.start, before, InitWrites());
    InitLeavesDark(Run(bus.start, before));
  }

  /** One digit dwell: raise the select, write the pattern, drop the select. */
  method ShowDigit(bus: Bus, x: Line, pattern: bv8)
    modifies bus
    ensures bus.trace == old(bus.trace) + Pulse(x, pattern)
  {
    bus.Write(Sel(x, true));
    bus.Write(Data(pattern));
    bus.Write(Sel(x, false));
  }

  /** Display_ShowTime: each digit is selected, its pattern written, and
      after its dwell the select dropped again. */
  method ShowTime(bus: Bus, nsTime: Byte, ewTime: Byte)
    modifies bus
    ensures bus.trace == old(bus.trace) + ShowTimeWrites(nsTime, ewTime)
  {
    ghost var pa := Pulse(A, SegmentTable[TensDigit(nsTime)]);
    ghost var pb := Pulse(B, SegmentTable[nsTime % 10]);
    ghost var pc := Pulse(C, SegmentTable[TensDigit(ewTime)]);
    var digit: nat;
    digit := nsTime / 10;
    if digit > 9 {
      digit := 9;
    }
    ShowDigit(bus, A, SegmentTable[digit]);

    digit := nsTime % 10;
    ShowDigit(bus, B, SegmentTable[digit]);

    digit := ewTime / 10;
    if digit > 9 {
      digit := 9;
    }
    ShowDigit(bus, C, SegmentTable[digit]);
    assert old(bus.trace) + pa + pb + pc == old(bus.trace) + (pa + pb + pc);
  }
}
