# 8-point FFT on a stream: kernel, software reference and testbench

The repository implements one 8-point radix-2 decimation-in-time FFT in
three places:

- the HLS kernel `fft` (`8pointfft.cpp`) reads a frame of complex
  single-precision samples from an AXI stream, reorders it, runs three
  butterfly stages and writes the eight results back to a stream;
- the C-simulation testbench (`testbench.cpp`) holds the software
  reference `fft_sw` and a `main` that pushes one frame through the kernel
  and compares the result with `fft_sw`, index by index;
- the bare-metal Zynq program (`LAB12/.../helloworld.c`) holds the tables
  `rev8` and `W` and the routines `bitreverse` and `FFT_stages`.

The model keeps everything except the floating-point values:

- `Wire` models a sample as the two 32-bit IEEE-754 bit patterns
  (`reinterpret_cast` only relabels bits). It also holds the 64-bit packing
  used on the stream and the framing with the `last` side-band bit.
- `Network` holds the bit-reversal table, the twiddle table and the gather
  and butterfly loops, as methods over arrays proved against pure
  specification functions (`Permute`, `Stage1`..`Stage3`, `Transform`,
  `FftSpec`). Complex addition, subtraction and multiplication are
  uninterpreted functions (`Arith`), so every result holds whatever the float
  unit computes. Ghost write counters show that each stage writes every slot
  exactly once. The copies of these loops in helloworld.c, `fft` and `fft_sw` are identical, so the
  model writes them once and `fft` and `fft_sw` both call them.
- `Streams` models `hls::stream` as a queue object whose blocking `read`
  needs a beat to be present.
- `HlsFft` models the kernel: the read loop with its early break on `last`,
  the transform, and the write loop that sets `last` on beat 7 only.
- `Testbench` models `fft_sw`, the packing loop, the compare loop and
  `main`. `main` is modelled for any frame; `TestVector` holds the frame
  that `main` in testbench.cpp fixes, and `Testbench.RunTestVector` runs
  `main` on it. The float `!=` of the comparison is an uninterpreted
  equality `eq` on bit patterns, so NaN and signed zero are not assumed away.

The main results:

- `HlsFft.KernelMatchesSoftware`: on a frame with `last` only on beat 7,
  the decoded output of `fft` is exactly `fft_sw` of the input, for every
  arithmetic and every twiddle value.
- `Testbench.TestbenchMain`: `main` therefore returns 0 exactly when each
  reference value compares equal to itself.

After an early `last`, slots k+1..7 of `input_array` hold (+0.0, +0.0),
because `std::complex<float>`'s default constructor zeroes them and the read
loop never reaches them. The model keeps those zeros (`HlsFft.ReadFrame`,
`HlsFft.EarlyLastZeroFill`).

## Model

| member | source | states |
|---|---|---|
| Wire.Encode | 8pointfft.cpp:93-95 | the real bits land in bits 31..0 of the word and the imaginary bits in bits 63..32 |
| Wire.Decode | 8pointfft.cpp:32-38 | real from the low 32 bits, imaginary from the high 32 bits; re-encoding the result gives back the original word, so every word decodes |
| Wire.DecodeEncode | testbench.cpp:38-60 | decoding the packed word returns both bit patterns unchanged |
| Wire.EncodeInjective | 8pointfft.cpp:93-95 | two samples with the same word are the same sample |
| Wire.EncodeFrame | testbench.cpp:33-47 | exactly eight beats; beat i decodes to sample i; `last` is set on beat 7 and on no other |
| Wire.DecodeFrame | testbench.cpp:51-60 | eight samples; sample i re-encodes to the data word of beat i |
| Wire.DecodeEncodeFrame | testbench.cpp:33-60 | decoding a packed frame returns the frame |
| Network.Reverse3 | LAB12/LAB12.sdk/Lab12/src/helloworld.c:14 | the table entry at i is i with its three bits reversed, and the entry at that index is i again |
| Network.Rev8Involution | LAB12/LAB12.sdk/Lab12/src/helloworld.c:14 | `rev8[rev8[i]] == i` for every slot, and every slot 0..7 occurs in the table |
| Network.PermuteInvolution | LAB12/LAB12.sdk/Lab12/src/helloworld.c:23-27 | reordering a frame twice gives back the frame |
| Network.PermuteIsPermutation | LAB12/LAB12.sdk/Lab12/src/helloworld.c:23-27 | the reordered frame holds the same samples with the same multiplicities |
| Network.TwiddleTable | 8pointfft.cpp:49-54 | four entries; `W[0]` is (1.0f, +0.0f); `W[1..3]` are the three rotations in order |
| Network.BitReverse | LAB12/LAB12.sdk/Lab12/src/helloworld.c:23-27 | `dataOut[i] == dataIn[rev8[i]]` for all eight slots, and `dataIn` is unchanged |
| Network.ButterflyStage1 | LAB12/LAB12.sdk/Lab12/src/helloworld.c:37-40 | `temp1` is sum and difference of each adjacent pair; each slot is written exactly once |
| Network.ButterflyStage2 | LAB12/LAB12.sdk/Lab12/src/helloworld.c:43-48 | `temp2` pairs i+j with i+j+2 under twiddle `W[2j]`; each slot is written exactly once |
| Network.ButterflyBlock2 | LAB12/LAB12.sdk/Lab12/src/helloworld.c:44-47 | for the block starting at i (0 or 4), slots i..i+3 get their stage 2 results and one more counted write; every other slot and its count are unchanged |
| Network.ButterflyStage3 | LAB12/LAB12.sdk/Lab12/src/helloworld.c:51-54 | output i and i+4 from `temp2[i]`, `temp2[i+4]` under `W[i]`; each slot is written exactly once |
| Network.FftStages | LAB12/LAB12.sdk/Lab12/src/helloworld.c:30-55 | the output is the three stages applied to the input; the input array is not written; all three stages write every slot once |
| Network.Stages23AreRadix2 | 8pointfft.cpp:74-86 | stages 2 and 3 are the radix-2 decimation-in-time stages of span 2 and 4, with twiddle index (p mod h)·N/2h |
| Network.Stage1IsRadix2 | 8pointfft.cpp:67-71 | stage 1 is the radix-2 stage of span 1 whenever multiplying by `W[0]` is the identity |
| Network.Stage2TwiddleUse | 8pointfft.cpp:74-80 | stage 2 reads only `W[0]` and `W[2]`: tables that agree on those give the same result |
| Streams.Stream.constructor | testbench.cpp:16-17 | a new stream is empty |
| Streams.Stream.Read | 8pointfft.cpp:31 | returns the oldest beat and removes it |
| Streams.Stream.Write | 8pointfft.cpp:101 | appends the beat at the end |
| Streams.WriteFrame | 8pointfft.cpp:89-102 | appends exactly the eight beats of the packed frame, in order, with `last` on the final beat only |
| HlsFft.EndFrom | 8pointfft.cpp:28-46 | the first position in i..6 whose beat carries `last`, else 7; no beat before it carries `last` |
| HlsFft.FrameEnd | 8pointfft.cpp:28-46 | the read loop stops before 7 exactly when some beat below 7 carries `last`, at the first such beat, and otherwise reads all eight |
| HlsFft.ReadInput | 8pointfft.cpp:28-46 | consumes exactly `FrameEnd + 1` beats; slots 0..k hold them decoded in order; later slots keep their zero |
| HlsFft.EarlyLastZeroFill | 8pointfft.cpp:40-45 | with the first `last` on beat j < 7, j+1 beats are read; slots 0..j are those beats decoded and slots j+1..7 are zero |
| HlsFft.Fft | 8pointfft.cpp:14-103 | consumes the frame as the read loop does and appends to the output stream the packed transform of what was read |
| HlsFft.OutputWellFormed | 8pointfft.cpp:89-102 | for every input the kernel writes eight beats with `last` on beat 7 only, decoding to the transform of the frame read |
| HlsFft.ReadWellFormedFrame | testbench.cpp:33-49 | a packed frame (`last` on beat 7 only) is read whole and gives back the samples it was packed from |
| HlsFft.KernelMatchesSoftware | testbench.cpp:49-66 | for a packed frame, the decoded kernel output equals the software transform slot for slot, for any arithmetic and twiddles |
| Testbench.FftSw | testbench.cpp:73-112 | the output array holds the transform of the input (same table, reordering and stages as the kernel); the input is unchanged |
| Testbench.FirstMismatch | testbench.cpp:51-67 | returns the first index at which real or imaginary parts differ, with all earlier indices agreeing; returns none exactly when all indices agree |
| Testbench.CompareOutput | testbench.cpp:51-70 | reads beats until the first mismatch, returns 1 with that index, or 0 after eight agreeing beats; consumes exactly the beats read |
| Testbench.RunKernel | testbench.cpp:33-49 | packs the input into a fresh stream, runs the kernel and returns an eight-beat output stream that decodes to the software transform |
| Testbench.TestbenchMain | testbench.cpp:14-71 | the verdict equals comparing the reference transform with itself: exit code 0 exactly when every reference part compares equal to itself, otherwise 1 at the first index where it does not |
| Testbench.RunTestVector | testbench.cpp:14-71 | `main` on the frame (11,23), (32,10), …, (49,58) returns 0 whenever the comparison treats every bit pattern as equal to itself, for any arithmetic and twiddles |

## Left out

- `main` of `helloworld.c` is not modelled: platform set-up, AXI DMA transfers, busy-wait polling, `XTime` timing, `printf`, and its 1e-4 tolerance comparison, which is float arithmetic.
- Float numerics are not modelled: IEEE-754 rounding, `std::cos`/`std::sin`, and the values of the twiddle factors. `Arith` and `Rotations` are uninterpreted, so no result says the network computes the mathematical DFT.
- The literal twiddle table of `helloworld.c`, including whether `1 - 0*I` has a negative-zero imaginary part. `FFT_stages` is modelled with the table as a parameter, so the results never equate it with the table of `fft`.
- `#pragma HLS INTERFACE` directives: they only steer synthesis.
- HlsFft.Fft: a blocking read on an empty stream, which stalls the hardware, is modelled as a precondition that the input holds the beats the read loop asks for.
- `information.h` is not part of this model. The model assumes `axis_data` has a 64-bit `data` and a one-bit `last`, and that `N` is 8, as their uses imply.
- Testbench.TestbenchMain: the `printf` messages are not modelled. The index printed in the error message is returned as `mismatch` instead.
- Testbench.CompareOutput: the float `!=` is an uninterpreted equality `eq` on bit patterns rather than IEEE comparison (NaN, signed zero).
- Network.BitReverse: requires distinct input and output arrays. Every caller (`main` in helloworld.c, `fft` and `fft_sw`) passes distinct arrays, so aliasing is not modelled.
