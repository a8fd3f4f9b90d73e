/** The HLS kernel `fft`: reads one frame of up to eight beats from its input
    stream, reorders it, runs the three butterfly stages and writes exactly
    eight beats to its output stream. */
module HlsFft {
  import opened Wire
  import opened Network
  import opened Streams

  /** Where the read loop stops when it starts looking at position `i`: the
      first position k in i..6 whose beat carries `last`, or 7 when there is
      none (the beat at 7 ends the loop whatever its flag). Positions beyond
      the stream count as not carrying `last`. */
  function EndFrom(s: seq<Framed>, i: nat): (k: nat)
    requires i <= N - 1
    ensures i <= k <= N - 1
    ensures k < N - 1 ==> k < |s| && s[k].last
    ensures forall j :: i <= j < k && j < |s| ==> !s[j].last
    decreases N - 1 - i
  {
    if i == N - 1 then N - 1
    else if i < |s| && s[i].last then i
    else EndFrom(s, i + 1)
  }

  /** The position of the last beat the read loop consumes from `s`. It reads
      `FrameEnd(s) + 1` beats: up to an early `last` at a position below 7,
      and otherwise exactly eight, whether `last` is on beat 7 or nowhere. */
  function FrameEnd(s: seq<Framed>): (k: nat)
    ensures k <= N - 1
    ensures k < N - 1 <==> exists j :: 0 <= j < N - 1 && j < |s| && s[j].last
    ensures k < N - 1 ==> k < |s| && s[k].last
    ensures forall j :: 0 <= j < k && j < |s| ==> !s[j].last
  {
    EndFrom(s, 0)
  }

  /** `input_array` once the first `n` beats of `s` are decoded into it,
      the other slots still zero. */
  function Filled(s: seq<Framed>, n: nat): (x: seq<Complex>)
    requires n <= |s|
    ensures |x| == N
  {
    seq(N, i requires 0 <= i < N => if i < n then Decode(s[i].data) else Zero)
  }

  /** The contents of `input_array` after the read loop: beats 0..k decoded in
      order, and the slots after an early `last` still holding the zero that
      `std::complex<float>` starts from. */
  function ReadFrame(s: seq<Framed>): (x: seq<Complex>)
    requires FrameEnd(s) < |s|
    ensures |x| == N
  {
    Filled(s, FrameEnd(s) + 1)
  }

  /** The eight beats `fft` writes for the input stream `s`. */
  function FftWords(ops: Arith, rot: Rotations, s: seq<Framed>): (out: seq<Framed>)
    requires FrameEnd(s) < |s|
    ensures |out| == N
  {
    EncodeFrame(FftSpec(ops, TwiddleTable(rot), ReadFrame(s)))
  }

  /** The read loop of `fft`: pops and decodes one beat per slot of
      `inputArray`, in order, and stops after an early `last`. Slots it does
      not reach keep what they held (`fft` passes them zeroed). */
  method ReadInput(input: Stream, inputArray: array<Complex>)
    requires inputArray.Length == N
    requires FrameEnd(input.contents) < |input.contents|
    requires forall j :: 0 <= j < N ==> inputArray[j] == Zero
    modifies input, inputArray
    ensures input.contents == old(input.contents)[FrameEnd(old(input.contents)) + 1..]
    ensures inputArray[..] == ReadFrame(old(input.contents))
  {
    ghost var s := input.contents;
    ghost var k := FrameEnd(s);
    assert inputArray[..] == Filled(s, 0);
    var i := 0;
    while i < N
      invariant 0 <= i <= N
      invariant i < N ==> i <= k
      invariant i == N ==> k == N - 1
      invariant input.contents == s[i..]
      invariant i <= |s| && inputArray[..] == Filled(s, i)
    {
      var inputData := input.Read();
      inputArray[i] := Decode(inputData.data);
      assert inputArray[..] == Filled(s, i + 1);
      if inputData.last && i < N - 1 {
        assert i == k;
        break;
      }
      i := i + 1;
    }
    assert input.contents == s[k + 1..];
    assert inputArray[..] == ReadFrame(s);
  }

  /** The kernel. `ops` stands for the float unit and `rot` for the values of
      the cos/sin expressions that fill `W[1..3]`. The input stream must hold
      the beats the read loop asks for, or the kernel would block. */
  method Fft(input: Stream, output: Stream, ops: Arith, rot: Rotations)
    requires input != output
    requires FrameEnd(input.contents) < |input.contents|
    modifies input, output
    ensures input.contents == old(input.contents)[FrameEnd(old(input.contents)) + 1..]
    ensures output.contents == old(output.contents) + FftWords(ops, rot, old(input.contents))
  {
    ghost var s := input.contents;
    var inputArray := new Complex[N](_ => Zero);
    var reversedArray := new Complex[N];
    var fftOutput := new Complex[N];

    ReadInput(input, inputArray);
    var w := TwiddleTable(rot);
    BitReverse(inputArray, reversedArray);
    ghost var writes1, writes2, writes3;
    writes1, writes2, writes3 := FftStages(reversedArray, fftOutput, ops, w);
    assert fftOutput[..] == FftSpec(ops, w, ReadFrame(s));
    WriteFrame(output, fftOutput);
  }

  /** A frame closed early by `last` on beat j < 7, and on no beat before
      it, is read as j + 1 beats: slots 0..j hold those beats decoded in
      order and slots j+1..7 keep their zero. */
  lemma EarlyLastZeroFill(s: seq<Framed>, j: nat)
    requires j < N - 1 && j < |s| && s[j].last
    requires forall i :: 0 <= i < j ==> !s[i].last
    ensures FrameEnd(s) == j
    ensures forall i :: 0 <= i <= j ==> ReadFrame(s)[i] == Decode(s[i].data)
    ensures forall i :: j < i < N ==> ReadFrame(s)[i] == Zero
  {
  }

  /** Whatever the input, the kernel's output is a well-formed frame: eight
      beats, `last` on beat 7 only, carrying the transform of what was read. */
  lemma OutputWellFormed(ops: Arith, rot: Rotations, s: seq<Framed>)
    requires FrameEnd(s) < |s|
    ensures |FftWords(ops, rot, s)| == N
    ensures forall i :: 0 <= i < N ==> (FftWords(ops, rot, s)[i].last <==> i == N - 1)
    ensures DecodeFrame(FftWords(ops, rot, s)) == FftSpec(ops, TwiddleTable(rot), ReadFrame(s))
  {
    DecodeEncodeFrame(FftSpec(ops, TwiddleTable(rot), ReadFrame(s)));
  }

  /** A frame whose only `last` is on beat 7, as the testbench builds it,
      is read whole: all eight beats are consumed and decode to the samples
      the frame was built from. */
  lemma ReadWellFormedFrame(x: seq<Complex>)
    requires |x| == N
    ensures FrameEnd(EncodeFrame(x)) == N - 1
    ensures ReadFrame(EncodeFrame(x)) == x
  {
    var s := EncodeFrame(x);
    var r := ReadFrame(s);
    forall j | 0 <= j < N ensures r[j] == x[j] {
    }
  }

  /** On a well-formed frame the kernel's decoded output is the software
      transform of the samples, for any float arithmetic and any rotations:
      the two paths share the table, the reordering and the stage formulas,
      and the wire codec is exact. */
  lemma KernelMatchesSoftware(ops: Arith, rot: Rotations, x: seq<Complex>)
    requires |x| == N
    ensures FrameEnd(EncodeFrame(x)) < |EncodeFrame(x)|
    ensures DecodeFrame(FftWords(ops, rot, EncodeFrame(x))) == FftSpec(ops, TwiddleTable(rot), x)
  {
    ReadWellFormedFrame(x);
    DecodeEncodeFrame(FftSpec(ops, TwiddleTable(rot), x));
  }
}
