/** Machine-level vocabulary shared by every controller variant: the C51
    integer widths, the six lamps of the intersection, and the multiplexed
    digit display seen as a log of writes to its data port and select lines. */
module Hw {

  /** C51 `unsigned char`. */
  type Byte = x: int | 0 <= x < 0x100

  /** C51 `unsigned int` (16 bits on this compiler). */
  type Word = x: int | 0 <= x < 0x1_0000

  /** The lamp outputs: red, yellow and green for the north-south head and
      for the east-west head; `true` means the lamp is lit. */
  datatype Lamps = Lamps(nsRed: bool, nsYellow: bool, nsGreen: bool,
                         ewRed: bool, ewYellow: bool, ewGreen: bool)
  {
    /** Exactly one lamp of the north-south head is lit. */
    predicate OneNs() {
      (nsRed && !nsYellow && !nsGreen) || (!nsRed && nsYellow && !nsGreen) || (!nsRed && !nsYellow && nsGreen)
    }

    /** Exactly one lamp of the east-west head is lit. */
    predicate OneEw() {
      (ewRed && !ewYellow && !ewGreen) || (!ewRed && ewYellow && !ewGreen) || (!ewRed && !ewYellow && ewGreen)
    }

    /** One lamp per head and at least one head held at red: the safety shape
        every phase of every variant has. */
    predicate Safe() {
      OneNs() && OneEw() && (nsRed || ewRed)
    }
  }

  const AllOff := Lamps(false, false, false, false, false, false)
  const AllRed := Lamps(true, false, false, true, false, false)

  /** The display's select lines. */
  datatype Line = A | B | C

  /** One write to the display hardware: a whole byte to the segment data
      port, or one select line driven to a level. */
  datatype BusWrite = Data(value: bv8) | Sel(line: Line, level: bool)

  /** The levels currently driven on the display hardware. */
  datatype Levels = Levels(data: bv8, selA: bool, selB: bool, selC: bool)
  {
    /** The levels with select line `x` driven to `level`. */
    function Drive(x: Line, level: bool): (r: Levels)
      ensures r.data == data
      ensures r.selA == if x == A then level else selA
      ensures r.selB == if x == B then level else selB
      ensures r.selC == if x == C then level else selC
    {
      match x
      case A => this.(selA := level)
      case B => this.(selB := level)
      case C => this.(selC := level)
    }
  }

  /** The levels after one write. */
  function Apply(l: Levels, w: BusWrite): Levels
  {
    match w
    case Data(v) => l.(data := v)
    case Sel(x, level) => l.Drive(x, level)
  }

  /** The levels after a whole sequence of writes, first write first. */
  function Run(l: Levels, t: seq<BusWrite>): Levels
    decreases |t|
  {
    if t == [] then l else Run(Apply(l, t[0]), t[1..])
  }

  /** Running two write sequences back to back is running their concatenation. */
  lemma {:induction false} RunAppend(l: Levels, a: seq<BusWrite>, b: seq<BusWrite>)
    ensures Run(l, a + b) == Run(Run(l, a), b)
    decreases |a|
  {
    if a != [] {
      assert (a + b)[0] == a[0];
      assert (a + b)[1..] == a[1..] + b;
      RunAppend(Apply(l, a[0]), a[1..], b);
    } else {
      assert a + b == b;
    }
  }

  /** The levels latched by every data write: what each digit dwell shows,
      together with the select lines that address it. */
  function Frames(l: Levels, t: seq<BusWrite>): seq<Levels>
    decreases |t|
  {
    if t == [] then []
    else (if t[0].Data? then [Apply(l, t[0])] else []) + Frames(Apply(l, t[0]), t[1..])
  }

  /** No select line is driven while the data port holds anything but the
      blank pattern: the anti-ghosting discipline of a multiplexed display. */
  predicate Blanked(blank: bv8, l: Levels, t: seq<BusWrite>)
    decreases |t|
  {
    t == [] || ((!t[0].Data? ==> l.data == blank) && Blanked(blank, Apply(l, t[0]), t[1..]))
  }

  /** The frames of a concatenation are those of its parts, the second part
      run from the levels the first leaves. */
  lemma {:induction false} FramesAppend(l: Levels, a: seq<BusWrite>, b: seq<BusWrite>)
    ensures Frames(l, a + b) == Frames(l, a) + Frames(Run(l, a), b)
    decreases |a|
  {
    if a != [] {
      assert (a + b)[0] == a[0];
      assert (a + b)[1..] == a[1..] + b;
      FramesAppend(Apply(l, a[0]), a[1..], b);
    } else {
      assert a + b == b;
    }
  }

  /** A concatenation is blanked exactly when its first part is, and its
      second part is from the levels the first part leaves. */
  lemma {:induction false} BlankedAppend(blank: bv8, l: Levels, a: seq<BusWrite>, b: seq<BusWrite>)
    ensures Blanked(blank, l, a + b) <==> Blanked(blank, l, a) && Blanked(blank, Run(l, a), b)
    decreases |a|
  {
    if a != [] {
      assert (a + b)[0] == a[0];
      assert (a + b)[1..] == a[1..] + b;
      BlankedAppend(blank, Apply(l, a[0]), a[1..], b);
    } else {
      assert a + b == b;
    }
  }

  /** `p` written `n` times in a row. */
  function Repeat(p: seq<BusWrite>, n: nat): seq<BusWrite>
  {
    if n == 0 then [] else Repeat(p, n - 1) + p
  }

  /** `n` repetitions of `p` are `n * |p|` writes. */
  lemma {:induction false} RepeatLength(p: seq<BusWrite>, n: nat)
    ensures |Repeat(p, n)| == n * |p|
  {
    if n > 0 {
      RepeatLength(p, n - 1);
    }
  }

  /** If a block is blanked from any starting levels, so is any number of
      repetitions of it. */
  lemma {:induction false} RepeatBlanked(blank: bv8, p: seq<BusWrite>, n: nat, l: Levels)
    requires forall l': Levels :: Blanked(blank, l', p)
    ensures Blanked(blank, l, Repeat(p, n))
  {
    if n > 0 {
      RepeatBlanked(blank, p, n - 1, l);
      BlankedAppend(blank, l, Repeat(p, n - 1), p);
    }
  }

  /** The display hardware as the program drives it: the levels it started
      from and the log of every write since. */
  class Bus {
    const start: Levels
    var trace: seq<BusWrite>

    /** The levels currently on the pins. */
    function Current(): Levels
      reads this
    {
      Run(start, trace)
    }

    constructor (start: Levels)
      ensures this.start == start && trace == []
    {
      this.start := start;
      trace := [];
    }

    method Write(w: BusWrite)
      modifies this
      ensures trace == old(trace) + [w]
    {
      trace := trace + [w];
    }
  }
}
