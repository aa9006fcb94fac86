/** A receiver for ERLT frames, used as an independent reference for the encoder.

    It reads a buffer the way an edge-triggered timing decoder reads the light
    signal: it measures how long each level lasts, takes a run of NumPeriods0
    units as a 0 bit and a run of NumPeriods1 units as a 1 bit, and checks the
    even parity over the six data bits and the parity bit. Decoding the frame
    of a code gives back that code; this is what the frame layout is for. */
module ErltDecoder {
  import opened ErltFrame

  datatype Option<T> = None | Some(value: T)

  /** Length of the maximal run of `level` that starts at `pos`. */
  function MeasureRun(s: seq<bv8>, pos: nat, level: bv8): (n: nat)
    ensures n > 0 ==> pos + n <= |s|
    decreases |s| - pos
  {
    if pos < |s| && s[pos] == level then 1 + MeasureRun(s, pos + 1, level) else 0
  }

  /** A run of `level` exactly n long at `pos`, ended by another level or by the end of s,
      measures n. */
  lemma {:induction false} MeasureRunExact(s: seq<bv8>, pos: nat, level: bv8, n: nat)
    requires pos + n <= |s|
    requires forall k :: pos <= k < pos + n ==> s[k] == level
    requires pos + n == |s| || s[pos + n] != level
    ensures MeasureRun(s, pos, level) == n
    decreases n
  {
    if n > 0 {
      MeasureRunExact(s, pos + 1, level, n - 1);
    }
  }

  /** The bit a run length stands for, if it stands for one. */
  function RunBit(n: nat): Option<bool>
  {
    if n == NumPeriods0 then Some(false)
    else if n == NumPeriods1 then Some(true)
    else None
  }

  /** The other of the two levels: the receiver expects each run at the level opposite to the
      one before it. */
  function Toggle(level: bv8): (other: bv8)
    ensures other == On || other == Off
    ensures level == On || level == Off ==> other != level
  {
    if level == On then Off else On
  }

  /** Reads bit runs i .. 6 from `pos` on, the first at `level` and each later one at the other
      level: the data runs and then, as run 6, the parity run. */
  function DecodeBits(s: seq<bv8>, pos: nat, i: nat, level: bv8): (r: Option<seq<bool>>)
    requires i <= DataBitCount + 1
    ensures r.Some? ==> |r.value| == DataBitCount + 1 - i
    decreases DataBitCount + 1 - i
  {
    if i == DataBitCount + 1 then Some([])
    else
      var n := MeasureRun(s, pos, level);
      var b := RunBit(n);
      if b.None? then None
      else
        var rest := DecodeBits(s, pos + n, i + 1, Toggle(level));
        if rest.None? then None else Some([b.value] + rest.value)
  }

  /** The code of six bits, most significant first. */
  function FromBits(bits: seq<bool>): (code: bv8)
    requires |bits| >= DataBitCount
    ensures code < 64
  {
    (if bits[0] then 32 else 0) | (if bits[1] then 16 else 0) | (if bits[2] then 8 else 0) |
    (if bits[3] then 4 else 0) | (if bits[4] then 2 else 0) | (if bits[5] then 1 else 0)
  }

  /** The code a receiver reads from a buffer; None for a bad header, a run of the wrong
      length or a parity error. */
  function Decode(s: seq<bv8>): Option<bv8>
  {
    if MeasureRun(s, 0, On) != NumPeriods0 || MeasureRun(s, NumPeriods0, Off) != NumPeriods0 then None
    else
      match DecodeBits(s, 2 * NumPeriods0, 0, On)
      case None => None
      case Some(bits) => if CountOnes(bits) % 2 == 0 then Some(FromBits(bits)) else None
  }

  // ---------------------------------------------------------------------
  // The bits a frame carries

  /** The seven bits the frame of `code` carries: the data bits, then the parity bit. */
  function SentBits(code: bv8): seq<bool>
  {
    DataBits(code) + [!ParityFlag(code)]
  }

  /** The data bits read most significant first give back the code. */
  lemma DataBitsRoundTrip(code: bv8)
    requires code < 64
    ensures FromBits(DataBits(code)) == code
    ensures FromBits(SentBits(code)) == code
  {
    var b := DataBits(code);
    assert SentBits(code)[..DataBitCount] == b;
    assert b[0] == (code & 32 != 0) && b[1] == (code & 16 != 0) && b[2] == (code & 8 != 0);
    assert b[3] == (code & 4 != 0) && b[4] == (code & 2 != 0) && b[5] == (code & 1 != 0);
  }

  /** Data bits plus parity bit always hold an even number of 1-bits. */
  lemma SentBitsEvenParity(code: bv8)
    ensures CountOnes(SentBits(code)) % 2 == 0
  {
    var s := SentBits(code);
    assert s[..DataBitCount] == DataBits(code);
    CountOnesStep(s, DataBitCount);
    assert s[..DataBitCount + 1] == s;
  }

  lemma SuffixCons<T>(s: seq<T>, i: nat)
    requires i < |s|
    ensures s[i..] == [s[i]] + s[i + 1..]
  {
  }

  lemma WholeSuffix<T>(s: seq<T>)
    ensures s[0..] == s
  {
  }

  /** Runs 2 .. 8 of the frame carry the sent bits, one bit per run. */
  lemma SentRun(code: bv8, i: nat)
    requires i <= DataBitCount
    ensures Runs(code)[i + 2].length == Periods(SentBits(code)[i])
  {
    FrameIsFullLength(code);
    var rs := Runs(code);
    if i < DataBitCount {
      assert rs[i + 2] == DataRun(code, i);
    } else {
      assert rs[i + 2] == ParityRun(code);
    }
  }

  // ---------------------------------------------------------------------
  // Decoding any signal laid out as alternating runs

  /** The runs start On, switch level from each run to the next, and none is empty. */
  ghost predicate Alternating(rs: seq<Run>)
  {
    |rs| > 0 && rs[0].level == On &&
    (forall r :: 0 <= r < |rs| ==> rs[r].length > 0 && (rs[r].level == On || rs[r].level == Off)) &&
    (forall r :: 0 < r < |rs| ==> rs[r].level == Toggle(rs[r - 1].level))
  }

  /** Where a run starts, the receiver measures exactly its length: the next run has the other
      level, or the signal ends. */
  lemma MeasureLaidRun(s: seq<bv8>, rs: seq<Run>, r: nat)
    requires LaidOut(s, rs) && Alternating(rs) && r < |rs|
    ensures MeasureRun(s, Start(rs, r), rs[r].level) == rs[r].length
  {
    var start := Start(rs, r);
    TotalStep(rs, r);
    if r + 1 < |rs| {
      LaidOutAt(s, rs, r + 1, start + rs[r].length);
      assert rs[r + 1].level != rs[r].level;
    } else {
      assert rs[..r + 1] == rs;
    }
    forall k | start <= k < start + rs[r].length ensures k < |s| && s[k] == rs[r].level {
      LaidOutAt(s, rs, r, k);
    }
    MeasureRunExact(s, start, rs[r].level, rs[r].length);
  }

  /** One step of DecodeBits: a run that stands for bit b, followed by runs that read as rest. */
  lemma DecodeBitsStep(s: seq<bv8>, pos: nat, i: nat, level: bv8, n: nat, b: bool, rest: seq<bool>)
    requires i <= DataBitCount && MeasureRun(s, pos, level) == n && RunBit(n) == Some(b)
    requires DecodeBits(s, pos + n, i + 1, Toggle(level)) == Some(rest)
    ensures DecodeBits(s, pos, i, level) == Some([b] + rest)
  {
  }

  /** Where each run starts, the receiver measures that run's length at that run's level. */
  ghost predicate Measured(s: seq<bv8>, rs: seq<Run>)
  {
    forall r :: 0 <= r < |rs| ==> MeasureRun(s, Start(rs, r), rs[r].level) == rs[r].length
  }

  lemma MeasuredLaidOut(s: seq<bv8>, rs: seq<Run>)
    requires LaidOut(s, rs) && Alternating(rs)
    ensures Measured(s, rs)
  {
    forall r | 0 <= r < |rs| ensures MeasureRun(s, Start(rs, r), rs[r].level) == rs[r].length {
      MeasureLaidRun(s, rs, r);
    }
  }

  /** One run of a measured signal: if the runs after run i + 2 read as the bits after bits[i],
      then the runs from run i + 2 on read as the bits from bits[i] on. */
  lemma DecodeLaidStep(s: seq<bv8>, rs: seq<Run>, bits: seq<bool>, i: nat)
    requires Measured(s, rs) && Alternating(rs) && |rs| == 10
    requires |bits| == DataBitCount + 1 && i < |bits|
    requires rs[i + 2].length == Periods(bits[i])
    requires DecodeBits(s, Start(rs, i + 3), i + 1, rs[i + 3].level) == Some(bits[i + 1..])
    ensures DecodeBits(s, Start(rs, i + 2), i, rs[i + 2].level) == Some(bits[i..])
  {
    var pos := Start(rs, i + 2);
    var n := rs[i + 2].length;
    assert MeasureRun(s, pos, rs[i + 2].level) == n;
    assert Start(rs, i + 3) == pos + n by {
      TotalStep(rs, i + 2);
    }
    assert rs[i + 3].level == Toggle(rs[i + 2].level);
    DecodeBitsStep(s, pos, i, rs[i + 2].level, n, bits[i], bits[i + 1..]);
    SuffixCons(bits, i);
  }

  /** Runs i + 2 .. 8 of a measured signal decode to the bits their lengths stand for. */
  lemma {:induction false} DecodeLaidBits(s: seq<bv8>, rs: seq<Run>, bits: seq<bool>, i: nat)
    requires Measured(s, rs) && Alternating(rs) && |rs| == 10
    requires |bits| == DataBitCount + 1
    requires forall t :: 0 <= t < |bits| ==> rs[t + 2].length == Periods(bits[t])
    requires i <= DataBitCount + 1
    ensures DecodeBits(s, Start(rs, i + 2), i, rs[i + 2].level) == Some(bits[i..])
    decreases DataBitCount + 1 - i
  {
    if i == DataBitCount + 1 {
      assert bits[i..] == [];
    } else {
      DecodeLaidBits(s, rs, bits, i + 1);
      DecodeLaidStep(s, rs, bits, i);
    }
  }

  /** A signal measured as a NumPeriods0 header pair followed by seven bit runs with even parity
      decodes to the code of its first six bits. */
  lemma DecodeLaid(s: seq<bv8>, rs: seq<Run>, bits: seq<bool>)
    requires Measured(s, rs) && Alternating(rs) && |rs| == 10
    requires rs[0].length == NumPeriods0 && rs[1].length == NumPeriods0
    requires |bits| == DataBitCount + 1 && CountOnes(bits) % 2 == 0
    requires forall t :: 0 <= t < |bits| ==> rs[t + 2].length == Periods(bits[t])
    ensures Decode(s) == Some(FromBits(bits))
  {
    // A variable rather than the literal 0, so that the lemmas below are not unrolled on literals.
    var first: nat := 0;
    HeaderLaid(s, rs);
    DecodeLaidBits(s, rs, bits, first);
    WholeSuffix(bits);
  }

  /** The header of a measured signal: an On run and an Off run of NumPeriods0 each, then the
      first bit run, On, right after them. */
  lemma HeaderLaid(s: seq<bv8>, rs: seq<Run>)
    requires Measured(s, rs) && Alternating(rs) && |rs| == 10
    requires rs[0].length == NumPeriods0 && rs[1].length == NumPeriods0
    ensures MeasureRun(s, 0, On) == NumPeriods0 && MeasureRun(s, NumPeriods0, Off) == NumPeriods0
    ensures Start(rs, 2) == 2 * NumPeriods0 && rs[2].level == On
  {
    // A variable rather than the literal 0, so that the lemmas below are not unrolled on literals.
    var first: nat := 0;
    assert Start(rs, first) == 0 by { assert rs[..first] == []; }
    assert MeasureRun(s, Start(rs, first), rs[first].level) == rs[first].length;
    assert MeasureRun(s, Start(rs, first + 1), rs[first + 1].level) == rs[first + 1].length;
    assert rs[first + 1].level == Off && rs[first + 2].level == On;
    TotalStep(rs, first);
    TotalStep(rs, first + 1);
  }

  // ---------------------------------------------------------------------
  // The encoder's frame decodes to its code

  /** The runs of every frame alternate, starting On, and the receiver measures each of them at
      its full length. */
  lemma FrameMeasured(code: bv8)
    ensures Alternating(Runs(code)) && Measured(Frame(code), Runs(code)) && |Runs(code)| == 10
    ensures Runs(code)[0].length == NumPeriods0 && Runs(code)[1].length == NumPeriods0
  {
    var rs := Runs(code);
    RunsLayout(code);
    FlattenLaidOut(rs);
    FrameAlternating(code);
    MeasuredLaidOut(Flatten(rs), rs);
  }

  lemma FrameAlternating(code: bv8)
    ensures Alternating(Runs(code))
  {
    var rs := Runs(code);
    RunsAlternate(code);
    forall r | 0 < r < |rs| ensures rs[r].level == Toggle(rs[r - 1].level) {
      assert rs[r].level == Level(r) && rs[r - 1].level == Level(r - 1);
    }
  }

  /** Round trip: a receiver decodes the frame of every 6-bit code back to that code. */
  lemma DecodeFrame(code: bv8)
    requires code < 64
    ensures Decode(Frame(code)) == Some(code)
  {
    var rs := Runs(code);
    var bits := SentBits(code);
    FrameMeasured(code);
    forall t | 0 <= t < |bits| ensures rs[t + 2].length == Periods(bits[t]) {
      SentRun(code, t);
    }
    SentBitsEvenParity(code);
    DataBitsRoundTrip(code);
    DecodeLaid(Frame(code), rs, bits);
  }

  /** Different codes give different frames. */
  lemma FrameInjective(c1: bv8, c2: bv8)
    requires c1 < 64 && c2 < 64
    ensures Frame(c1) == Frame(c2) <==> c1 == c2
  {
    DecodeFrame(c1);
    DecodeFrame(c2);
  }

  /** The frame depends on byte 5 of the transponder data only, and only on its low six bits. */
  lemma FrameOfData(a: seq<bv8>, b: seq<bv8>)
    requires |a| > 5 && |b| > 5
    ensures Frame(Code(a)) == Frame(Code(b)) <==> a[5] & 63 == b[5] & 63
  {
    FrameInjective(Code(a), Code(b));
  }
}
