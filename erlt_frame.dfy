/** The ERLT transponder frame, as a value.

    A frame is a sequence of runs; a run is a number of consecutive buffer
    entries that all hold the same level (On = 50, Off = 0), each entry
    standing for one 50 microsecond time unit. The frame for a 6-bit code is

      header:  NumPeriods0 x On, NumPeriods0 x Off
      data:    six runs, most significant bit first; run i is NumPeriods1
               long when bit i is set and NumPeriods0 long otherwise, at
               level On for even i and Off for odd i
      parity:  one run at level On, NumPeriods0 long when the data holds an
               even number of 1-bits and NumPeriods1 long otherwise
      padding: Off up to FrameLength entries

    The encoder in module TransponderIr writes exactly this sequence into the
    transmit buffer; the lemmas here give the positions and levels it needs. */
module ErltFrame {

  /** Time units in a run that stands for a 0 bit (and in each half of the header). */
  const NumPeriods0: nat := 5
  /** Time units in a run that stands for a 1 bit. */
  const NumPeriods1: nat := 13
  /** Entries in one frame; padding brings every frame to this length. */
  const FrameLength: nat := 400
  /** Capacity of the transmit buffer. */
  const BufferSize: nat := 720
  /** Buffer value for "IR LED on" during one time unit. */
  const On: bv8 := 50
  /** Buffer value for "IR LED off" during one time unit. */
  const Off: bv8 := 0
  /** Number of data bits in a code. */
  const DataBitCount: nat := 6

  datatype Run = Run(level: bv8, length: nat)

  // ---------------------------------------------------------------------
  // Runs laid out as buffer entries

  function Fill(r: Run): seq<bv8>
  {
    seq(r.length, _ => r.level)
  }

  /** Sum of the lengths of the runs. */
  function Total(rs: seq<Run>): nat
  {
    if rs == [] then 0 else Total(rs[..|rs| - 1]) + rs[|rs| - 1].length
  }

  /** The runs written one after the other. */
  function Flatten(rs: seq<Run>): (s: seq<bv8>)
    ensures |s| == Total(rs)
  {
    if rs == [] then [] else Flatten(rs[..|rs| - 1]) + Fill(rs[|rs| - 1])
  }

  /** Run k starts where runs 0..k-1 end: successive runs are contiguous. */
  lemma TotalStep(rs: seq<Run>, k: nat)
    requires k < |rs|
    ensures Total(rs[..k + 1]) == Total(rs[..k]) + rs[k].length
  {
    assert rs[..k + 1][..k] == rs[..k];
  }

  lemma {:induction false} TotalAppend(a: seq<Run>, b: seq<Run>)
    ensures Total(a + b) == Total(a) + Total(b)
    decreases |b|
  {
    if b != [] {
      var b' := b[..|b| - 1];
      assert (a + b)[..|a + b| - 1] == a + b';
      TotalAppend(a, b');
    } else {
      assert a + b == a;
    }
  }

  /** Entry j of run k sits at Total(rs[..k]) + j in the flattened sequence. */
  lemma {:induction false} FlattenAt(rs: seq<Run>, k: nat, j: nat)
    requires k < |rs| && j < rs[k].length
    ensures Total(rs[..k]) + j < Total(rs)
    ensures Flatten(rs)[Total(rs[..k]) + j] == rs[k].level
    decreases |rs|
  {
    var n := |rs|;
    var init := rs[..n - 1];
    assert Flatten(rs) == Flatten(init) + Fill(rs[n - 1]);
    if k == n - 1 {
      assert rs[..k] == init;
    } else {
      assert init[..k] == rs[..k] && init[k] == rs[k];
      FlattenAt(init, k, j);
    }
  }

  /** Index where run r starts once the runs are laid out. */
  function Start(rs: seq<Run>, r: nat): nat
    requires r <= |rs|
  {
    Total(rs[..r])
  }

  /** s holds the runs rs one after the other: every entry of run r holds its level. */
  ghost predicate LaidOut(s: seq<bv8>, rs: seq<Run>)
  {
    |s| == Total(rs) &&
    forall r :: 0 <= r < |rs| ==> RunLaidOut(s, rs, r)
  }

  /** Every entry of run r of rs holds its level in s. */
  ghost predicate RunLaidOut(s: seq<bv8>, rs: seq<Run>, r: nat)
    requires r < |rs|
  {
    Start(rs, r) + rs[r].length <= |s| &&
    forall k :: Start(rs, r) <= k < Start(rs, r) + rs[r].length ==> s[k] == rs[r].level
  }

  lemma LaidOutAt(s: seq<bv8>, rs: seq<Run>, r: nat, k: nat)
    requires LaidOut(s, rs) && r < |rs| && Start(rs, r) <= k < Start(rs, r) + rs[r].length
    ensures k < |s| && s[k] == rs[r].level
  {
    assert RunLaidOut(s, rs, r);
  }

  lemma FlattenLaidOut(rs: seq<Run>)
    ensures LaidOut(Flatten(rs), rs)
  {
    var s := Flatten(rs);
    forall r | 0 <= r < |rs| ensures RunLaidOut(s, rs, r) {
      if rs[r].length > 0 {
        FlattenAt(rs, r, rs[r].length - 1);
      } else {
        TotalAppend(rs[..r], rs[r..]);
        assert rs[..r] + rs[r..] == rs;
      }
      forall k | Start(rs, r) <= k < Start(rs, r) + rs[r].length ensures s[k] == rs[r].level {
        var j := k - Start(rs, r);
        FlattenAt(rs, r, j);
        assert Start(rs, r) + j == k;
      }
    }
  }

  // ---------------------------------------------------------------------
  // The code and its bits

  /** The transmitted code: the complement of byte 5 of the transponder data, masked to 6 bits. */
  function Code(data: seq<bv8>): (code: bv8)
    requires |data| > 5
    ensures code < 64
    ensures code == 63 - (data[5] & 63)
  {
    (!data[5]) & 63
  }

  /** Data bit i of a code; bit 0 is the most significant of the six. */
  function Bit(code: bv8, i: nat): bool
    requires i < DataBitCount
  {
    code & (32 >> i) != 0
  }

  /** The encoder tests bit i against the mask 32 >> i and then shifts the mask one place right. */
  lemma MaskStep(code: bv8, i: nat, bitmask: bv8)
    requires i < DataBitCount && bitmask == 32 >> i
    ensures (code & bitmask == 0) == !Bit(code, i)
    ensures bitmask >> 1 == 32 >> (i + 1)
  {
  }

  /** One pass of the encoder's data-bit loop: the mask picks bit i, the bit decides the run
      length and whether the parity flips, and the run has Level(i). */
  lemma DataBitStep(code: bv8, i: nat, bitmask: bv8)
    requires i < DataBitCount && bitmask == 32 >> i
    ensures bitmask >> 1 == 32 >> (i + 1)
    ensures Runs(code)[i + 2] ==
      Run(if i % 2 == 0 then On else Off, if code & bitmask == 0 then NumPeriods0 else NumPeriods1)
    ensures (CountOnes(DataBits(code)[..i + 1]) % 2 == 0) <==>
      ((CountOnes(DataBits(code)[..i]) % 2 == 0) != (code & bitmask != 0))
  {
    MaskStep(code, i, bitmask);
    ParityStep(code, i);
    RunsLayout(code);
    assert Runs(code)[i + 2] == DataRun(code, i);
  }

  /** The six data bits in transmission order. */
  function DataBits(code: bv8): seq<bool>
  {
    seq(DataBitCount, i requires 0 <= i < DataBitCount => Bit(code, i))
  }

  function CountOnes(bits: seq<bool>): nat
  {
    if bits == [] then 0 else CountOnes(bits[..|bits| - 1]) + (if bits[|bits| - 1] then 1 else 0)
  }

  lemma CountOnesStep(bits: seq<bool>, i: nat)
    requires i < |bits|
    ensures CountOnes(bits[..i + 1]) == CountOnes(bits[..i]) + (if bits[i] then 1 else 0)
  {
    assert bits[..i + 1][..i] == bits[..i];
  }

  /** Taking in data bit i flips the parity of the 1-bits seen so far exactly when bit i is set. */
  lemma ParityStep(code: bv8, i: nat)
    requires i < DataBitCount
    ensures (CountOnes(DataBits(code)[..i + 1]) % 2 == 0) <==> ((CountOnes(DataBits(code)[..i]) % 2 == 0) != Bit(code, i))
  {
    CountOnesStep(DataBits(code), i);
  }

  lemma {:induction false} CountOnesAtMost(bits: seq<bool>)
    ensures CountOnes(bits) <= |bits|
    decreases |bits|
  {
    if bits != [] {
      CountOnesAtMost(bits[..|bits| - 1]);
    }
  }

  lemma {:induction false} CountOnesUniform(bits: seq<bool>, b: bool)
    requires forall k :: 0 <= k < |bits| ==> bits[k] == b
    ensures CountOnes(bits) == if b then |bits| else 0
    decreases |bits|
  {
    if bits != [] {
      CountOnesUniform(bits[..|bits| - 1], b);
    }
  }

  /** The encoder's running parity flag after all six bits: true when the number of 1-bits is even. */
  function ParityFlag(code: bv8): bool
  {
    CountOnes(DataBits(code)) % 2 == 0
  }

  // ---------------------------------------------------------------------
  // The frame

  /** Run length that carries one bit. */
  function Periods(bit: bool): nat
  {
    if bit then NumPeriods1 else NumPeriods0
  }

  /** Level of data run i: the levels alternate from run to run. */
  function Level(i: nat): bv8
  {
    if i % 2 == 0 then On else Off
  }

  function DataRun(code: bv8, i: nat): Run
    requires i < DataBitCount
  {
    Run(Level(i), Periods(Bit(code, i)))
  }

  function ParityRun(code: bv8): Run
  {
    Run(On, if ParityFlag(code) then NumPeriods0 else NumPeriods1)
  }

  /** Header, data and parity runs: everything before the padding. */
  function Body(code: bv8): seq<Run>
  {
    [Run(On, NumPeriods0), Run(Off, NumPeriods0)]
    + seq(DataBitCount, i requires 0 <= i < DataBitCount => DataRun(code, i))
    + [ParityRun(code)]
  }

  /** Padding after `used` entries: the encoder pads only while the cursor is below FrameLength. */
  function PadLength(used: nat): nat
  {
    if used < FrameLength then FrameLength - used else 0
  }

  /** The ten runs of the frame: 2 header, 6 data, 1 parity, 1 padding. */
  function Runs(code: bv8): seq<Run>
  {
    Body(code) + [Run(Off, PadLength(Total(Body(code))))]
  }

  function Frame(code: bv8): seq<bv8>
  {
    Flatten(Runs(code))
  }

  /** Index in the frame where run r starts. */
  function RunStart(code: bv8, r: nat): nat
    requires r <= 10
  {
    Total(Runs(code)[..r])
  }

  // ---------------------------------------------------------------------
  // Properties of the frame

  /** Header, data and parity fit in 2 * NumPeriods0 + 7 * NumPeriods1 entries, which fits in a
      frame, which fits in the buffer. */
  lemma BodyFits(code: bv8)
    ensures Total(Body(code)) <= 2 * NumPeriods0 + 7 * NumPeriods1
    ensures 2 * NumPeriods0 + 7 * NumPeriods1 < FrameLength <= BufferSize
  {
    BodyLength(code);
    CountOnesAtMost(DataBits(code));
  }

  /** Runs that carry the bits `bits` add up to NumPeriods0 per bit plus the difference
      NumPeriods1 - NumPeriods0 per 1-bit. */
  lemma {:induction false} TotalOfBitRuns(rs: seq<Run>, bits: seq<bool>)
    requires |rs| == |bits|
    requires forall t :: 0 <= t < |rs| ==> rs[t].length == Periods(bits[t])
    ensures Total(rs) == |bits| * NumPeriods0 + CountOnes(bits) * (NumPeriods1 - NumPeriods0)
    decreases |rs|
  {
    if rs != [] {
      TotalOfBitRuns(rs[..|rs| - 1], bits[..|bits| - 1]);
    }
  }

  /** Exact length of header, data and parity: it depends on the number of 1-bits only. */
  lemma BodyLength(code: bv8)
    ensures Total(Body(code)) ==
      2 * NumPeriods0 + DataBitCount * NumPeriods0 + CountOnes(DataBits(code)) * (NumPeriods1 - NumPeriods0)
      + ParityRun(code).length
  {
    var header := [Run(On, NumPeriods0), Run(Off, NumPeriods0)];
    var data := seq(DataBitCount, i requires 0 <= i < DataBitCount => DataRun(code, i));
    assert header[..1] == [Run(On, NumPeriods0)] && header[..1][..0] == [];
    assert Total(header[..1]) == NumPeriods0;
    assert Total([ParityRun(code)]) == ParityRun(code).length by {
      assert [ParityRun(code)][..0] == [];
    }
    TotalOfBitRuns(data, DataBits(code));
    TotalAppend(header, data);
    TotalAppend(header + data, [ParityRun(code)]);
  }

  /** Every frame is exactly FrameLength entries long, and its padding run is never empty. */
  lemma FrameIsFullLength(code: bv8)
    ensures |Runs(code)| == 10
    ensures RunStart(code, 9) == Total(Body(code)) < FrameLength
    ensures RunStart(code, 10) == |Frame(code)| == FrameLength
  {
    BodyFits(code);
    var rs := Runs(code);
    assert rs[..9] == Body(code);
    assert rs[..10] == rs;
    TotalStep(rs, 9);
  }

  /** Run r of the frame covers the entries RunStart(code, r) .. RunStart(code, r + 1) - 1,
      every one of them at the run's level. */
  lemma RunAt(code: bv8, r: nat, j: nat)
    requires r < 10 && j < Runs(code)[r].length
    ensures RunStart(code, r + 1) == RunStart(code, r) + Runs(code)[r].length
    ensures RunStart(code, r) + j < FrameLength
    ensures Frame(code)[RunStart(code, r) + j] == Runs(code)[r].level
  {
    FrameIsFullLength(code);
    TotalStep(Runs(code), r);
    FlattenAt(Runs(code), r, j);
  }

  /** The runs of a frame in order: header On and Off, six data runs, the parity run, and the
      padding, which reaches exactly to FrameLength. */
  lemma RunsLayout(code: bv8)
    ensures |Runs(code)| == 10
    ensures Runs(code)[0] == Run(On, NumPeriods0) && Runs(code)[1] == Run(Off, NumPeriods0)
    ensures forall i :: 0 <= i < DataBitCount ==> Runs(code)[i + 2] == DataRun(code, i)
    ensures Runs(code)[8] == ParityRun(code)
    ensures RunStart(code, 9) < FrameLength
    ensures Runs(code)[9] == Run(Off, FrameLength - RunStart(code, 9))
  {
    FrameIsFullLength(code);
  }

  /** Entries [0, NumPeriods0) are On and entries [NumPeriods0, 2 * NumPeriods0) are Off. */
  lemma HeaderAt(code: bv8, k: nat)
    requires k < 2 * NumPeriods0
    ensures RunStart(code, 2) == 2 * NumPeriods0
    ensures Frame(code)[k] == if k < NumPeriods0 then On else Off
  {
    var rs := Runs(code);
    assert rs[..0] == [];
    assert rs[0] == Run(On, NumPeriods0) && rs[1] == Run(Off, NumPeriods0);
    if k < NumPeriods0 {
      RunAt(code, 0, k);
    } else {
      RunAt(code, 0, 0);
      RunAt(code, 1, k - NumPeriods0);
    }
    RunAt(code, 1, 0);
  }

  /** Data run i starts at RunStart(code, i + 2), is NumPeriods1 long if bit i is set and
      NumPeriods0 long otherwise, holds Level(i) throughout, and the next run starts right after it. */
  lemma DataRunAt(code: bv8, i: nat, j: nat)
    requires i < DataBitCount && j < Periods(Bit(code, i))
    ensures RunStart(code, i + 3) == RunStart(code, i + 2) + Periods(Bit(code, i))
    ensures RunStart(code, i + 2) + j < FrameLength
    ensures Frame(code)[RunStart(code, i + 2) + j] == Level(i)
  {
    assert Runs(code)[i + 2] == DataRun(code, i);
    RunAt(code, i + 2, j);
  }

  /** The parity run starts at RunStart(code, 8), is at level On, and is NumPeriods0 long exactly
      when the data has an even number of 1-bits. */
  lemma ParityRunAt(code: bv8, j: nat)
    requires j < ParityRun(code).length
    ensures ParityRun(code).length == NumPeriods0 <==> CountOnes(DataBits(code)) % 2 == 0
    ensures RunStart(code, 9) == RunStart(code, 8) + ParityRun(code).length
    ensures RunStart(code, 8) + j < FrameLength
    ensures Frame(code)[RunStart(code, 8) + j] == On
  {
    assert Runs(code)[8] == ParityRun(code);
    RunAt(code, 8, j);
  }

  /** Every entry from the end of the parity run up to FrameLength is Off. */
  lemma PaddingAt(code: bv8, k: nat)
    requires RunStart(code, 9) <= k < FrameLength
    ensures RunStart(code, 9) <= 2 * NumPeriods0 + 7 * NumPeriods1
    ensures Frame(code)[k] == Off
  {
    FrameIsFullLength(code);
    BodyFits(code);
    assert Runs(code)[9] == Run(Off, FrameLength - RunStart(code, 9));
    RunAt(code, 9, k - RunStart(code, 9));
  }

  /** Runs at levels On and Off flatten to entries that are each On or Off. */
  lemma {:induction false} FlattenLevels(rs: seq<Run>, k: nat)
    requires forall r :: 0 <= r < |rs| ==> rs[r].level == On || rs[r].level == Off
    requires k < |Flatten(rs)|
    ensures Flatten(rs)[k] == On || Flatten(rs)[k] == Off
    decreases |rs|
  {
    var init := rs[..|rs| - 1];
    assert Flatten(rs) == Flatten(init) + Fill(rs[|rs| - 1]);
    if k < |Flatten(init)| {
      FlattenLevels(init, k);
    }
  }

  /** Every entry of a frame is On or Off. */
  lemma FrameLevels(code: bv8, k: nat)
    requires k < FrameLength
    ensures Frame(code)[k] == On || Frame(code)[k] == Off
  {
    FrameIsFullLength(code);
    RunsAlternate(code);
    FlattenLevels(Runs(code), k);
  }

  /** Adjacent runs of a frame have different levels, and no run is empty: a receiver sees every
      run boundary as an edge. */
  lemma RunsAlternate(code: bv8)
    ensures |Runs(code)| == 10
    ensures forall r :: 0 <= r < 9 ==> Runs(code)[r].level != Runs(code)[r + 1].level
    ensures forall r :: 0 <= r < 10 ==> Runs(code)[r].length > 0
    ensures forall r :: 0 <= r < 10 ==> Runs(code)[r].level == Level(r)
  {
    FrameIsFullLength(code);
    var rs := Runs(code);
    forall r | 0 <= r < 10 ensures rs[r].level == Level(r) && rs[r].length > 0 {
      if 2 <= r < 8 {
        assert rs[r] == DataRun(code, r - 2);
      }
    }
  }

  // ---------------------------------------------------------------------
  // Two concrete frames

  /** Byte 5 = 0 sends code 63: six long runs, six 1-bits so a short parity run, and padding
      from entry 93 on. */
  lemma AllOnesFrame(data: seq<bv8>)
    requires |data| > 5 && data[5] == 0
    ensures Code(data) == 63
    ensures Runs(Code(data)) == [Run(On, 5), Run(Off, 5),
      Run(On, 13), Run(Off, 13), Run(On, 13), Run(Off, 13), Run(On, 13), Run(Off, 13),
      Run(On, 5), Run(Off, 307)]
  {
    var code := Code(data);
    RunsLayout(code);
    var bits := DataBits(code);
    assert bits == [true, true, true, true, true, true];
    CountOnesUniform(bits, true);
    BodyLength(code);
    assert Body(code) == Runs(code)[..9];
  }

  /** Byte 5 = 63 sends code 0: six short runs, no 1-bits so a short parity run, and padding
      from entry 45 on. */
  lemma AllZerosFrame(data: seq<bv8>)
    requires |data| > 5 && data[5] == 63
    ensures Code(data) == 0
    ensures Runs(Code(data)) == [Run(On, 5), Run(Off, 5),
      Run(On, 5), Run(Off, 5), Run(On, 5), Run(Off, 5), Run(On, 5), Run(Off, 5),
      Run(On, 5), Run(Off, 355)]
  {
    var code := Code(data);
    RunsLayout(code);
    var bits := DataBits(code);
    assert bits == [false, false, false, false, false, false];
    CountOnesUniform(bits, false);
    BodyLength(code);
    assert Body(code) == Runs(code)[..9];
  }
}
