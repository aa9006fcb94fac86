/** The transponder IR transmitter: one pulse buffer, one write cursor and one
    busy flag, shared between the caller that stages frames and the DMA
    playback that sends them.

    The caller may write the buffer only while no transfer is in progress.
    The driver enforces this by spinning on the busy flag before every write.
    Here that wait is a precondition (`requires !busy`), and the interrupt that
    ends a transfer is the method TransferComplete. */
module TransponderIr {
  import opened ErltFrame
  import opened ErltDecoder

  /** One thing that can happen to the transmitter: the caller stages new data, the caller starts
      a transfer, or the DMA-completion interrupt fires. */
  datatype Event = UpdateRequest(data: seq<bv8>) | TransmitRequest | DmaComplete

  class Transmitter {
    /** The DMA buffer, BufferSize entries of timer compare values (On or Off). */
    var buffer: array<bv8>
    /** The encoder's write cursor (dmaBufferOffset). */
    var offset: nat
    /** A transfer is in progress: DMA playback is reading the buffer. */
    var busy: bool
    /** The code whose frame the buffer holds, once one has been staged. */
    ghost var staged: Option<bv8>

    ghost predicate Valid()
      reads this, buffer
    {
      buffer.Length == BufferSize &&
      offset <= FrameLength &&
      (staged.Some? ==> staged.value < 64 && buffer[..FrameLength] == Frame(staged.value))
    }

    /** Start-up state: the buffer zero-filled, no transfer in progress. */
    constructor ()
      ensures Valid() && fresh(buffer)
      ensures !busy && offset == 0 && staged == None
      ensures forall k :: 0 <= k < buffer.Length ==> buffer[k] == Off
    {
      buffer := new bv8[BufferSize](_ => Off);
      offset := 0;
      busy := false;
      staged := None;
    }

    /** Ready exactly when no transfer is in progress. */
    method IsReady() returns (ready: bool)
      ensures ready <==> !busy
    {
      ready := !busy;
    }

    /** Writes `count` entries of `level` at the cursor and advances the cursor past them. */
    method WriteRun(level: bv8, count: nat)
      requires !busy && offset + count <= buffer.Length
      modifies this`offset, buffer
      ensures offset == old(offset) + count
      ensures forall k :: 0 <= k < buffer.Length ==>
        buffer[k] == if old(offset) <= k < offset then level else old(buffer[k])
    {
      var j := 0;
      while j < count
        invariant j <= count && offset == old(offset) + j
        invariant forall k :: 0 <= k < buffer.Length ==>
          buffer[k] == if old(offset) <= k < offset then level else old(buffer[k])
      {
        buffer[offset] := level;
        offset := offset + 1;
        j := j + 1;
      }
    }

    /** The first n entries of the buffer hold the first n entries of `frame`, and every later
        entry still holds what `orig` had there. */
    ghost predicate Written(frame: seq<bv8>, n: nat, orig: seq<bv8>)
      reads this, buffer
    {
      |frame| == FrameLength && buffer.Length == |orig| == BufferSize && n <= FrameLength &&
      (forall k :: 0 <= k < n ==> buffer[k] == frame[k]) &&
      (forall k :: n <= k < BufferSize ==> buffer[k] == orig[k])
    }

    /** The ERLT encoder: writes the frame of the code in byte 5 of `data` into the first
        FrameLength entries of the buffer and leaves the cursor at FrameLength. */
    method EncodeErlt(data: seq<bv8>)
      requires Valid() && !busy && |data| > 5
      modifies this`offset, this`staged, buffer
      ensures Valid()
      ensures offset == FrameLength && staged == Some(Code(data))
      ensures buffer[..FrameLength] == Frame(Code(data))
      ensures buffer[FrameLength..] == old(buffer[FrameLength..])
    {
      var code := (!data[5]) & 63;
      ghost var orig := buffer[..];
      ghost var rs := Runs(code);
      ghost var frame := Frame(code);
      FrameIsFullLength(code);
      RunsLayout(code);
      FlattenLaidOut(rs);
      assert Start(rs, 0) == 0 by { assert rs[..0] == []; }
      offset := 0;
      // Header
      WriteFrameRun(frame, rs, 0, On, NumPeriods0, orig);
      WriteFrameRun(frame, rs, 1, Off, NumPeriods0, orig);
      // Data bits
      var parity := EncodeDataBits(code, frame, orig);
      // Parity bit
      var numPeriods := if parity then NumPeriods0 else NumPeriods1;
      WriteFrameRun(frame, rs, 8, On, numPeriods, orig);
      // Padding
      EncodePadding(frame, rs, orig);
      staged := Some(code);
      assert buffer[..FrameLength] == frame;
    }

    /** Writes run r of the runs laid out in `frame` at the cursor, which stands where that run
        starts. */
    method WriteFrameRun(ghost frame: seq<bv8>, ghost rs: seq<Run>, ghost r: nat, level: bv8, count: nat,
                         ghost orig: seq<bv8>)
      requires !busy && LaidOut(frame, rs) && r < |rs| && rs[r] == Run(level, count)
      requires offset == Start(rs, r) && Written(frame, offset, orig)
      modifies this`offset, buffer
      ensures offset == Start(rs, r + 1) && Written(frame, offset, orig)
    {
      assert RunLaidOut(frame, rs, r);
      TotalStep(rs, r);
      WriteRun(level, count);
    }

    /** Data bits, most significant first: a run per bit at alternating levels, with the running
        parity of the 1-bits, which is returned. */
    method EncodeDataBits(code: bv8, ghost frame: seq<bv8>, ghost orig: seq<bv8>) returns (parity: bool)
      requires !busy && LaidOut(frame, Runs(code)) && |Runs(code)| == 10
      requires offset == Start(Runs(code), 2) && Written(frame, offset, orig)
      modifies this`offset, buffer
      ensures offset == Start(Runs(code), 8) && Written(frame, offset, orig)
      ensures parity == ParityFlag(code)
    {
      var bitmask: bv8 := 32;
      parity := true;
      var i := 0;
      while i < DataBitCount
        invariant i <= DataBitCount
        invariant offset == Start(Runs(code), i + 2) && Written(frame, offset, orig)
        invariant bitmask == 32 >> i
        invariant parity <==> CountOnes(DataBits(code)[..i]) % 2 == 0
      {
        DataBitStep(code, i, bitmask);
        var numPeriods;
        if code & bitmask == 0 {
          numPeriods := NumPeriods0;
        } else {
          numPeriods := NumPeriods1;
          parity := !parity;
        }
        bitmask := bitmask >> 1;
        var value := if i % 2 == 0 then On else Off;
        WriteFrameRun(frame, Runs(code), i + 2, value, numPeriods, orig);
        i := i + 1;
      }
      assert DataBits(code)[..DataBitCount] == DataBits(code);
    }

    /** Padding: the last run, Off, from the cursor up to FrameLength. */
    method EncodePadding(ghost frame: seq<bv8>, ghost rs: seq<Run>, ghost orig: seq<bv8>)
      requires !busy && LaidOut(frame, rs) && |rs| == 10
      requires Start(rs, 9) <= FrameLength && rs[9] == Run(Off, FrameLength - Start(rs, 9))
      requires offset == Start(rs, 9) && Written(frame, offset, orig)
      modifies this`offset, buffer
      ensures offset == FrameLength && Written(frame, offset, orig)
    {
      assert RunLaidOut(frame, rs, 9);
      var i := offset;
      while i < FrameLength
        invariant Start(rs, 9) <= offset == i <= FrameLength
        invariant Written(frame, offset, orig)
      {
        buffer[offset] := Off;
        offset := offset + 1;
        i := i + 1;
      }
    }

    /** Stages the frame for `data`; the transfer must be over (the driver spins until it is). */
    method UpdateData(data: seq<bv8>)
      requires Valid() && !busy && |data| > 5
      modifies this`offset, this`staged, buffer
      ensures Valid() && !busy
      ensures offset == FrameLength && staged == Some(Code(data))
      ensures buffer[..FrameLength] == Frame(Code(data))
      ensures buffer[FrameLength..] == old(buffer[FrameLength..])
    {
      EncodeErlt(data);
    }

    /** Starts playback of the buffer: resets the cursor and marks the transfer in progress. The
        buffer is left as it is, so a staged frame is sent as staged and reads back as its code. */
    method Transmit()
      requires Valid() && !busy
      modifies this`offset, this`busy
      ensures Valid() && busy && offset == 0
      ensures buffer[..] == old(buffer[..]) && staged == old(staged)
      ensures staged.Some? ==> Decode(buffer[..FrameLength]) == Some(staged.value)
    {
      offset := 0;
      busy := true;
      if staged.Some? {
        DecodeFrame(staged.value);
      }
    }

    /** The DMA-completion interrupt: the transfer is over. */
    method TransferComplete()
      requires Valid()
      modifies this`busy
      ensures Valid() && !busy
    {
      busy := false;
    }

    /** One event in any interleaving of caller and interrupt. A caller whose request finds a
        transfer in progress keeps spinning (proceeded is false) and changes nothing; in no case
        is the buffer written while a transfer is in progress. */
    method Step(e: Event) returns (proceeded: bool)
      requires Valid()
      requires e.UpdateRequest? ==> |e.data| > 5
      modifies this`offset, this`busy, this`staged, buffer
      ensures Valid()
      ensures proceeded <==> e.DmaComplete? || !old(busy)
      ensures old(busy) ==> buffer[..] == old(buffer[..])
      ensures !proceeded ==> offset == old(offset) && busy == old(busy) && staged == old(staged)
      ensures proceeded && e.UpdateRequest? ==> !busy && buffer[..FrameLength] == Frame(Code(e.data))
      ensures proceeded && e.UpdateRequest? ==>
        offset == FrameLength && staged == Some(Code(e.data)) &&
        buffer[FrameLength..] == old(buffer[FrameLength..])
      ensures proceeded && e.TransmitRequest? ==> busy && buffer[..] == old(buffer[..])
      ensures proceeded && e.TransmitRequest? ==> offset == 0 && staged == old(staged)
      ensures e.DmaComplete? ==> !busy && buffer[..] == old(buffer[..])
      ensures e.DmaComplete? ==> offset == old(offset) && staged == old(staged)
    {
      match e
      case UpdateRequest(data) =>
        proceeded := !busy;
        if proceeded {
          UpdateData(data);
        }
      case TransmitRequest =>
        proceeded := !busy;
        if proceeded {
          Transmit();
        }
      case DmaComplete =>
        proceeded := true;
        TransferComplete();
    }
  }

  /** Readiness over one cycle on a fresh transmitter: ready before the first transfer, not ready
      once a transfer starts, ready again after the completion interrupt. */
  method ReadinessCycle(data: seq<bv8>) returns (before: bool, during: bool, after: bool)
    requires |data| > 5
    ensures before && !during && after
  {
    var t := new Transmitter();
    before := t.IsReady();
    t.UpdateData(data);
    t.Transmit();
    during := t.IsReady();
    t.TransferComplete();
    after := t.IsReady();
  }
}
