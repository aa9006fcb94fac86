# Transponder IR driver: ERLT frame encoder and transmitter

This project models the core of the transponder IR driver in
`src/main/drivers/transponder_ir.c`.

The driver keeps one transmit buffer of 720 timer compare values, a write
cursor `dmaBufferOffset` and a volatile flag that says a DMA transfer is in
progress. The ERLT encoder `updateTransponderDMABuffer_erlt` turns byte 5 of
the transponder data into a 6-bit code, the complement of that byte masked
to six bits. It then writes the code's pulse frame into the buffer:

- a header of 5 entries On (50) and 5 entries Off (0);
- six data runs, most significant bit first, each 13 entries long for a 1
  bit and 5 long for a 0 bit, On for even bit indices and Off for odd ones;
- a parity run, On, 5 long when the code has an even number of 1-bits and
  13 long otherwise;
- Off padding up to entry 400.

The caller stages a frame with `transponderIrUpdateData` and starts playback
with `transponderIrTransmit`. Both first spin until no transfer is in
progress. `isTransponderIrReady` reports whether a transfer is in progress.

The model has three modules.

- `ErltFrame` (`erlt_frame.dfy`) defines the frame as a value. `Runs(code)`
  is the list of ten (level, length) runs, and `Frame(code)` lays them out
  one entry per time unit. Its lemmas give the exact positions, lengths and
  levels of every part of the frame, its fixed length of 400, and that it
  fits the buffer.
- `ErltDecoder` (`erlt_decoder.dfy`) is an independent reference for the
  encoder: a receiver that measures how long each level lasts, reads 5 as a
  0 bit and 13 as a 1 bit, and checks even parity. The central lemma
  `DecodeFrame` proves that this receiver reads back the code from the
  frame of every one of the 64 codes. It follows that different codes give
  different frames.
- `TransponderIr` (`transponder_ir.dfy`) is the driver's state as a class
  `Transmitter`. It owns the buffer as an `array<bv8>`, the cursor and the
  busy flag. `EncodeErlt` mirrors the encoder's loops: the header loops,
  the data-bit loop with its running `bitmask` and `parity`, the parity
  loop and the padding loop. It is proved to leave exactly `Frame(code)` in
  entries 0..399, the cursor at 400 and every later entry untouched.

The spin-wait before every buffer write is a precondition `!busy` on the
methods that write. In `Step` it is a request that makes no progress while
a transfer is in progress. The DMA-completion interrupt is the method
`TransferComplete`.

The encoder returns nothing. The number of entries it writes is the value
it leaves in the cursor, which is always 400, and the model states exactly
that.

Constants are taken from the driver file itself:

- 5 and 13 time units, from the loop comments at lines 75 and 87;
- the buffer size of 720, from the comment at line 36.

## Model

| member | source | states |
|---|---|---|
| ErltFrame.Code | src/main/drivers/transponder_ir.c:132 | The transmitted code is below 64 and equals 63 minus the low six bits of byte 5, i.e. the complement of byte 5 masked to 6 bits. It depends on no other byte. |
| ErltFrame.MaskStep | src/main/drivers/transponder_ir.c:150-164 | Testing the code against the mask 32 >> i tests data bit i, most significant first. Shifting the mask right gives the mask for bit i + 1. |
| ErltFrame.ParityStep | src/main/drivers/transponder_ir.c:153-163 | Taking in bit i flips the parity of the 1-bits seen so far exactly when bit i is set. |
| ErltFrame.DataBitStep | src/main/drivers/transponder_ir.c:155-170 | One pass of the data-bit loop. The mask picks the bit, the run is 13 or 5 long as the bit is set or not, its level is 50 for even i and 0 for odd i, and the parity flips exactly on a 1-bit. |
| ErltFrame.TotalOfBitRuns | src/main/drivers/transponder_ir.c:155-190 | Runs that carry bits take 5 entries per bit plus 8 more per 1-bit. |
| ErltFrame.BodyLength | src/main/drivers/transponder_ir.c:137-190 | Header, data and parity take exactly 10 + 30 + 8 × (number of 1-bits) + the parity run's length. |
| ErltFrame.BodyFits | src/main/drivers/transponder_ir.c:138-190 | What precedes the padding takes at most 2 × 5 + 7 × 13 = 101 entries. That is below the frame length 400, which is within the buffer size 720, so no write leaves the buffer. |
| ErltFrame.FrameIsFullLength | src/main/drivers/transponder_ir.c:192-197 | Every frame has ten runs and is exactly 400 entries long. The padding starts below 400, so it is never empty. |
| ErltFrame.RunsLayout | src/main/drivers/transponder_ir.c:137-197 | The runs in order: On 5, Off 5, the six data runs, the parity run, then Off up to entry 400. |
| ErltFrame.RunAt | src/main/drivers/transponder_ir.c:137-197 | Successive runs are contiguous. Every entry of run r lies below 400 and holds that run's level. |
| ErltFrame.HeaderAt | src/main/drivers/transponder_ir.c:137-147 | Entries [0, 5) are 50 and entries [5, 10) are 0, and the data starts at entry 10. |
| ErltFrame.DataRunAt | src/main/drivers/transponder_ir.c:150-177 | Data run i is 13 long if bit i is set and 5 otherwise. Every entry of it is 50 for even i and 0 for odd i, and the next run starts right after it. |
| ErltFrame.ParityRunAt | src/main/drivers/transponder_ir.c:180-190 | The parity run is at level 50 and directly follows the data. It is 5 long if and only if the code has an even number of 1-bits. |
| ErltFrame.PaddingAt | src/main/drivers/transponder_ir.c:192-197 | Every entry from the end of the parity run to entry 399 is 0. The parity run ends by entry 101. |
| ErltFrame.FrameLevels | src/main/drivers/transponder_ir.c:138-197 | Every entry the encoder writes is 0 or 50. |
| ErltFrame.RunsAlternate | src/main/drivers/transponder_ir.c:166-177 | Adjacent runs have different levels and no run is empty, so every run boundary is an edge. Run r has level 50 for even r and 0 for odd r. |
| ErltFrame.AllOnesFrame | src/main/drivers/transponder_ir.c:130-197 | Byte 5 = 0 gives code 63. The runs are then On 5, Off 5, six runs of 13, On 5 for the even parity, and Off 307. |
| ErltFrame.AllZerosFrame | src/main/drivers/transponder_ir.c:130-197 | Byte 5 = 63 gives code 0. The runs are then On 5, Off 5, six runs of 5, On 5, and Off 355. |
| ErltDecoder.DataBitsRoundTrip | src/main/drivers/transponder_ir.c:150-164 | The six bits in the order the encoder sends them, read most significant first, give back the code. |
| ErltDecoder.SentBitsEvenParity | src/main/drivers/transponder_ir.c:180-190 | The data bits together with the parity bit always hold an even number of 1-bits. |
| ErltDecoder.DecodeFrame | src/main/drivers/transponder_ir.c:130-198 | Round trip: a receiver that measures run lengths and checks parity reads back the code from the frame of every 6-bit code. |
| ErltDecoder.FrameInjective | src/main/drivers/transponder_ir.c:130-198 | Two codes have the same frame if and only if they are equal. |
| ErltDecoder.FrameOfData | src/main/drivers/transponder_ir.c:132 | Two transponder data buffers give the same frame if and only if the low six bits of their byte 5 agree. |
| TransponderIr.Transmitter.constructor | src/main/drivers/transponder_ir.c:38-44 | Start-up state: a zero-filled buffer of 720 entries, no transfer in progress, cursor 0. |
| TransponderIr.Transmitter.IsReady | src/main/drivers/transponder_ir.c:57-60 | Ready if and only if no transfer is in progress. The state is not changed. |
| TransponderIr.Transmitter.WriteRun | src/main/drivers/transponder_ir.c:138-147 | A run loop writes its level at the cursor `count` times and advances the cursor by `count`. No other entry changes. |
| TransponderIr.Transmitter.WriteFrameRun | src/main/drivers/transponder_ir.c:137-190 | Writing run r at the cursor, where run r starts, extends the written prefix of the frame through the end of run r. |
| TransponderIr.Transmitter.EncodeDataBits | src/main/drivers/transponder_ir.c:150-177 | The data-bit loop writes the six data runs after the header. Its parity flag starts true, meaning no 1-bits so far, an even count. It returns the flag, which is true exactly when the code has an even number of 1-bits. |
| TransponderIr.Transmitter.EncodePadding | src/main/drivers/transponder_ir.c:192-197 | The padding loop writes 0 from the cursor to entry 399 and leaves the cursor at 400. |
| TransponderIr.Transmitter.EncodeErlt | src/main/drivers/transponder_ir.c:130-198 | The buffer's first 400 entries become the frame of Code(data), the cursor ends at exactly 400, and entries 400..719 are unchanged. |
| TransponderIr.Transmitter.UpdateData | src/main/drivers/transponder_ir.c:209-214 | Once no transfer is in progress, stages the frame of the data's code in the buffer. It leaves the flag clear. |
| TransponderIr.Transmitter.Transmit | src/main/drivers/transponder_ir.c:217-225 | From idle: resets the cursor to 0 and sets the busy flag, so ready becomes false. The buffer is unchanged. A staged frame decodes back to its code. |
| TransponderIr.Transmitter.TransferComplete | src/main/drivers/transponder_ir.c:40 | The completion of a transfer clears the volatile in-progress flag. |
| TransponderIr.Transmitter.Step | src/main/drivers/transponder_ir.c:200-225 | One event in any interleaving of update, transmit and completion. A request that finds a transfer in progress changes nothing, and the buffer is never written while a transfer is in progress. An update that goes ahead stages the frame, leaves the cursor at 400 and entries 400..719 untouched. A transmit that goes ahead resets the cursor to 0 and sets the flag. Completion clears the flag and changes nothing else. |
| TransponderIr.ReadinessCycle | src/main/drivers/transponder_ir.c:57-60 | On a fresh transmitter the driver is ready before a transfer, not ready once one starts, and ready again after completion. |

## Left out

- The first definition of `updateTransponderDMABuffer_erlt` (lines 64-128) is not modelled. It writes a fixed test pattern for code 63 and ignores its input, and the file defines the same function twice. Only the second, data-driven definition is modelled, and the call at line 213 is taken to reach it.
- The hardware part of `transponderIrInit` (lines 46-54) is left out: the timer table scan and `transponderIrHardwareInit` are platform configuration. Only its effect on the start state is kept, a zero-filled buffer and a clear flag.
- `transponderIrDMAEnable`, DMA playback and the completion interrupt are left out: they are hardware and code outside this file. Completion is the method `TransferComplete`.
- The spin loop and `waitCounter` in `transponderIrWaitForTransmitComplete` (lines 200-207) are not a loop here. The loop can only end through a concurrent interrupt, so it is the precondition `!busy`, or in `Step` a request that does not proceed. The counter has no observable effect.
- The volatile flag's memory ordering and the real concurrency between caller and DMA are reduced to the interleaving of single events in `Step`.
- Physical timing is not modelled: the 50 microsecond unit, what the compare value 50 means to the timer, and the TODO about a randomised 20 ms gap (line 192).
- The header `transponder_ir.h` is not part of this model. `NUM_PERIODS_0`, `NUM_PERIODS_1` and `TRANSPONDER_DMA_BUFFER_SIZE` are fixed at 5, 13 and 720 as the comments in the driver give them.
- Integer widths: the cursor and the loop counter `i` are `uint16_t`, and the inner run counter `j` (line 171) is `uint8_t`. Here they are unbounded naturals. None of them can wrap: the cursor and `i` stay at or below 400, and `j` counts at most NUM_PERIODS_1 = 13.
- The data pointer is a sequence of bytes. The only demand on it is that byte 5 exists, which is `|data| > 5`.
