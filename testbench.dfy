/** The C-simulation testbench: the software reference `fft_sw` and the
    `main` that streams a frame through the HLS kernel `fft` and compares the
    kernel's output with the reference, index by index. */
module Testbench {
  import opened Wire
  import opened Network
  import opened Streams
  import opened HlsFft

  datatype Option<T> = None | Some(value: T)

  /** The frame `main` feeds to both transforms:
      (11,23), (32,10), (91,94), (15,69), (47,96), (44,12), (96,17), (49,58),
      as single-precision bit patterns. */
  const TestVector: seq<Complex> := [
    Complex(0x4130_0000, 0x41B8_0000), Complex(0x4200_0000, 0x4120_0000),
    Complex(0x42B6_0000, 0x42BC_0000), Complex(0x4170_0000, 0x428A_0000),
    Complex(0x423C_0000, 0x42C0_0000), Complex(0x4230_0000, 0x4140_0000),
    Complex(0x42C0_0000, 0x4188_0000), Complex(0x4244_0000, 0x4268_0000)]

  /** `fft_sw`: the same reordering and stages as the kernel, on arrays.
      `W` is built from the same expressions as in `fft`, hence the same
      `rot`. */
  method FftSw(inputArray: array<Complex>, fftOutput: array<Complex>, ops: Arith, rot: Rotations)
    requires inputArray.Length == N && fftOutput.Length == N
    modifies fftOutput
    ensures fftOutput[..] == FftSpec(ops, TwiddleTable(rot), old(inputArray[..]))
    ensures inputArray != fftOutput ==> inputArray[..] == old(inputArray[..])
  {
    var w := TwiddleTable(rot);
    var reversedArray := new Complex[N];
    BitReverse(inputArray, reversedArray);
    ghost var writes1, writes2, writes3;
    writes1, writes2, writes3 := FftStages(reversedArray, fftOutput, ops, w);
  }

  /** Whether `got` passes the testbench's comparison against `expected`:
      `eq` is the float `==` (the comparison uses `!=` on each part). */
  predicate Agrees(eq: (bv32, bv32) -> bool, expected: Complex, got: Complex)
  {
    eq(expected.re, got.re) && eq(expected.im, got.im)
  }

  /** The index the comparison loop stops at, scanning from `from`: the first
      slot where the two frames disagree, or None when all agree. */
  function FirstMismatch(eq: (bv32, bv32) -> bool, expected: seq<Complex>, got: seq<Complex>, from: nat)
    : (r: Option<nat>)
    requires |expected| == |got| && from <= |got|
    ensures r.Some? ==> from <= r.value < |got| && !Agrees(eq, expected[r.value], got[r.value])
    ensures r.Some? ==> forall j :: from <= j < r.value ==> Agrees(eq, expected[j], got[j])
    ensures r.None? <==> forall j :: from <= j < |got| ==> Agrees(eq, expected[j], got[j])
    decreases |got| - from
  {
    if from == |got| then None
    else if !Agrees(eq, expected[from], got[from]) then Some(from)
    else FirstMismatch(eq, expected, got, from + 1)
  }

  /** The comparison loop of `main`: reads and decodes eight beats of
      `outputStream` and stops at the first index whose real or imaginary part
      differs from `expected` (`mismatch` is the index the error message
      reports, `code` the exit status), consuming the beats up to it. */
  method CompareOutput(outputStream: Stream, expected: seq<Complex>, eq: (bv32, bv32) -> bool)
    returns (code: int, mismatch: Option<nat>)
    requires |expected| == N && |outputStream.contents| >= N
    modifies outputStream
    ensures mismatch == FirstMismatch(eq, expected, DecodeFrame(old(outputStream.contents)[..N]), 0)
    ensures code == (if mismatch.None? then 0 else 1)
    ensures outputStream.contents == old(outputStream.contents)[if mismatch.Some? then mismatch.value + 1 else N..]
  {
    ghost var words := outputStream.contents;
    ghost var got := DecodeFrame(words[..N]);
    var i := 0;
    while i < N
      invariant 0 <= i <= N
      invariant outputStream.contents == words[i..]
      invariant FirstMismatch(eq, expected, got, 0) == FirstMismatch(eq, expected, got, i)
    {
      var outputData := outputStream.Read();
      var sample := Decode(outputData.data);
      assert sample == got[i];
      if !eq(expected[i].re, sample.re) || !eq(expected[i].im, sample.im) {
        return 1, Some(i);
      }
      i := i + 1;
    }
    return 0, None;
  }

  /** The hardware half of `main`: a fresh input stream filled from
      `fftInput` by the packing loop (`last` on beat 7), a call of the kernel,
      and the output stream it leaves behind, which carries the software
      transform of the samples. */
  method RunKernel(fftInput: array<Complex>, ops: Arith, rot: Rotations) returns (outputStream: Stream)
    requires fftInput.Length == N
    ensures fresh(outputStream)
    ensures |outputStream.contents| == N
    ensures DecodeFrame(outputStream.contents[..N]) == FftSpec(ops, TwiddleTable(rot), fftInput[..])
  {
    ghost var x := fftInput[..];
    var inputStream := new Stream();
    outputStream := new Stream();
    WriteFrame(inputStream, fftInput);
    KernelMatchesSoftware(ops, rot, x);
    Fft(inputStream, outputStream, ops, rot);
    assert outputStream.contents[..N] == FftWords(ops, rot, EncodeFrame(x));
  }

  /** `main` on the frame `frame` (`main` in testbench.cpp fixes it to `TestVector`):
      computes `fft_sw`, streams the frame into `fft` and compares the decoded
      output with `fft_sw`. Because both transforms compute the same function
      of the frame, the verdict only depends on whether each reference value
      compares equal to itself: 0 whenever `eq` is reflexive on them (no NaN
      part), for any float arithmetic and any twiddle values. */
  method TestbenchMain(ops: Arith, rot: Rotations, eq: (bv32, bv32) -> bool, frame: seq<Complex>)
    returns (code: int, mismatch: Option<nat>)
    requires |frame| == N
    ensures var ref := FftSpec(ops, TwiddleTable(rot), frame);
      mismatch == FirstMismatch(eq, ref, ref, 0)
    ensures code == (if mismatch.None? then 0 else 1)
    ensures var ref := FftSpec(ops, TwiddleTable(rot), frame);
      code == 0 <==> forall i :: 0 <= i < N ==> Agrees(eq, ref[i], ref[i])
  {
    var fftInput := new Complex[N](i requires 0 <= i < N => frame[i]);
    var fftOutputSw := new Complex[N];
    assert fftInput[..] == frame;
    FftSw(fftInput, fftOutputSw, ops, rot);
    var expected := fftOutputSw[..];
    var outputStream := RunKernel(fftInput, ops, rot);
    code, mismatch := CompareOutput(outputStream, expected, eq);
  }

  /** `main` exactly as testbench.cpp runs it, on `TestVector`: whenever the
      float comparison treats every bit pattern as equal to itself (no NaN
      appears in the reference), the testbench reports success, for any
      float arithmetic and any twiddle values. */
  method RunTestVector(ops: Arith, rot: Rotations, eq: (bv32, bv32) -> bool) returns (code: int)
    requires forall a: bv32 :: eq(a, a)
    ensures code == 0
  {
    var mismatch;
    code, mismatch := TestbenchMain(ops, rot, eq, TestVector);
  }
}
