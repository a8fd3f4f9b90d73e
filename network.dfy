/** The 8-point radix-2 decimation-in-time network: the bit-reversal table
    `rev8`, the four-entry twiddle table, the gather `bitreverse` and the three
    butterfly stages of `FFT_stages`. The HLS kernel `fft` and the testbench's
    `fft_sw` inline the very same loops; both call the methods below.

    Float arithmetic is not modelled: complex addition, subtraction and
    multiplication are opaque functions supplied by the caller (`Arith`), and
    the twiddle values are opaque samples. Every fact proved here therefore
    holds whatever the floating-point unit computes. */
module Network {
  import opened Wire

  /** A slot of an 8-sample frame. */
  type Index = i: int | 0 <= i < 8

  /** Complex single-precision arithmetic, left uninterpreted. */
  datatype Arith = Arith(
    add: (Complex, Complex) -> Complex,
    sub: (Complex, Complex) -> Complex,
    mul: (Complex, Complex) -> Complex)

  /** The bit-reversal permutation for 3-bit indices. */
  const Rev8: seq<Index> := [0, 4, 2, 6, 1, 5, 3, 7]

  /** Reverses the three bits of `i` (b2 b1 b0 becomes b0 b1 b2), and is what
      the table holds at `i`; the table entry at the result is `i` again. */
  function Reverse3(i: Index): (j: Index)
    ensures Rev8[i] == j
    ensures Rev8[j] == i
  {
    (i % 2) * 4 + (i / 2 % 2) * 2 + i / 4
  }

  /** `rev8` is its own inverse, hence a permutation of 0..7. */
  lemma Rev8Involution()
    ensures forall i: Index :: Rev8[Rev8[i]] == i
    ensures forall j :: 0 <= j < N ==> j in Rev8
  {
    forall i: Index ensures Rev8[Rev8[i]] == i {
      var _ := Reverse3(i);
    }
    forall j | 0 <= j < N ensures j in Rev8 {
      assert Rev8[Rev8[j]] == j;
    }
  }

  /** The bit-reversed order of a frame: slot i takes input slot `rev8[i]`. */
  function Permute(x: seq<Complex>): (r: seq<Complex>)
    requires |x| == N
    ensures |r| == N
  {
    seq(N, i requires 0 <= i < N => x[Rev8[i]])
  }

  /** Reordering twice restores the frame. */
  lemma PermuteInvolution(x: seq<Complex>)
    requires |x| == N
    ensures Permute(Permute(x)) == x
  {
    Rev8Involution();
    var y := Permute(Permute(x));
    forall i | 0 <= i < N ensures y[i] == x[i] {
      assert y[i] == x[Rev8[Rev8[i]]];
    }
  }

  /** The reordered frame holds the same samples, each as often. */
  lemma PermuteIsPermutation(x: seq<Complex>)
    requires |x| == N
    ensures multiset(Permute(x)) == multiset(x)
  {
    // rev8 is the product of the transpositions (1 4) and (3 6)
    var y := x[1 := x[4]][4 := x[1]];
    assert multiset(y) == multiset(x);
    var z := y[3 := y[6]][6 := y[3]];
    assert multiset(z) == multiset(y);
    assert z == Permute(x);
  }

  /** The one twiddle factor that is exact in every table: (1.0f, +0.0f). */
  const One: Complex := Complex(0x3F80_0000, 0)

  /** The values of `(cos(-2πk/8), sin(-2πk/8))` for k = 1, 2, 3 as the
      float library rounds them; the model never looks inside them. */
  datatype Rotations = Rotations(w1: Complex, w2: Complex, w3: Complex)

  /** The table `W[4]` built by `fft` and `fft_sw`: N/2 entries, `W[0] = (1, 0)`,
      then the three rotations in order. */
  function TwiddleTable(rot: Rotations): (w: seq<Complex>)
    ensures |w| == N / 2
    ensures w[0] == One
    ensures w[1..] == [rot.w1, rot.w2, rot.w3]
  {
    [One, rot.w1, rot.w2, rot.w3]
  }

  /** Stage 1: adjacent pairs, sum then difference, no twiddle. */
  function Stage1(ops: Arith, x: seq<Complex>): (t: seq<Complex>)
    requires |x| == N
    ensures |t| == N
  {
    [ops.add(x[0], x[1]), ops.sub(x[0], x[1]),
     ops.add(x[2], x[3]), ops.sub(x[2], x[3]),
     ops.add(x[4], x[5]), ops.sub(x[4], x[5]),
     ops.add(x[6], x[7]), ops.sub(x[6], x[7])]
  }

  /** Stage 2: slots two apart inside each half, twiddles W[0] and W[2]. */
  function Stage2(ops: Arith, w: seq<Complex>, t: seq<Complex>): (u: seq<Complex>)
    requires |w| == N / 2 && |t| == N
    ensures |u| == N
  {
    [ops.add(t[0], ops.mul(w[0], t[2])), ops.add(t[1], ops.mul(w[2], t[3])),
     ops.sub(t[0], ops.mul(w[0], t[2])), ops.sub(t[1], ops.mul(w[2], t[3])),
     ops.add(t[4], ops.mul(w[0], t[6])), ops.add(t[5], ops.mul(w[2], t[7])),
     ops.sub(t[4], ops.mul(w[0], t[6])), ops.sub(t[5], ops.mul(w[2], t[7]))]
  }

  /** Stage 3: slot i against slot i + 4, twiddle W[i]. */
  function Stage3(ops: Arith, w: seq<Complex>, t: seq<Complex>): (y: seq<Complex>)
    requires |w| == N / 2 && |t| == N
    ensures |y| == N
  {
    [ops.add(t[0], ops.mul(w[0], t[4])), ops.add(t[1], ops.mul(w[1], t[5])),
     ops.add(t[2], ops.mul(w[2], t[6])), ops.add(t[3], ops.mul(w[3], t[7])),
     ops.sub(t[0], ops.mul(w[0], t[4])), ops.sub(t[1], ops.mul(w[1], t[5])),
     ops.sub(t[2], ops.mul(w[2], t[6])), ops.sub(t[3], ops.mul(w[3], t[7]))]
  }

  /** The three stages applied to a frame already in bit-reversed order. */
  function Transform(ops: Arith, w: seq<Complex>, x: seq<Complex>): (y: seq<Complex>)
    requires |w| == N / 2 && |x| == N
    ensures |y| == N
  {
    Stage3(ops, w, Stage2(ops, w, Stage1(ops, x)))
  }

  /** The whole transform of a frame in natural order. */
  function FftSpec(ops: Arith, w: seq<Complex>, x: seq<Complex>): (y: seq<Complex>)
    requires |w| == N / 2 && |x| == N
    ensures |y| == N
  {
    Transform(ops, w, Permute(x))
  }

  /** Reference definition of one radix-2 decimation-in-time stage of an
      8-point transform with butterfly span `h` (1, 2 or 4): within each block
      of 2h slots, slot p of the upper half pairs with p + h and slot p of the
      lower half with p - h, and the twiddle index is (p mod h) * (N / 2h). */
  function Radix2Stage(ops: Arith, w: seq<Complex>, h: nat, t: seq<Complex>): (u: seq<Complex>)
    requires h == 1 || h == 2 || h == 4
    requires |w| == N / 2 && |t| == N
    ensures |u| == N
  {
    seq(N, p requires 0 <= p < N =>
      var k := (p % h) * (N / (2 * h));
      if p % (2 * h) < h then ops.add(t[p], ops.mul(w[k], t[p + h]))
      else ops.sub(t[p - h], ops.mul(w[k], t[p])))
  }

  /** Stages 2 and 3 are the reference stages of span 2 and 4. */
  lemma Stages23AreRadix2(ops: Arith, w: seq<Complex>, t: seq<Complex>)
    requires |w| == N / 2 && |t| == N
    ensures Stage2(ops, w, t) == Radix2Stage(ops, w, 2, t)
    ensures Stage3(ops, w, t) == Radix2Stage(ops, w, 4, t)
  {
    var r2 := Radix2Stage(ops, w, 2, t);
    var r4 := Radix2Stage(ops, w, 4, t);
    assert Stage2(ops, w, t) == [r2[0], r2[1], r2[2], r2[3], r2[4], r2[5], r2[6], r2[7]];
    assert Stage3(ops, w, t) == [r4[0], r4[1], r4[2], r4[3], r4[4], r4[5], r4[6], r4[7]];
  }

  /** Stage 1 omits the twiddle: it is the reference stage of span 1 whenever
      multiplying by W[0] changes nothing. */
  lemma Stage1IsRadix2(ops: Arith, w: seq<Complex>, t: seq<Complex>)
    requires |w| == N / 2 && |t| == N
    requires forall c :: ops.mul(w[0], c) == c
    ensures Stage1(ops, t) == Radix2Stage(ops, w, 1, t)
  {
    var r1 := Radix2Stage(ops, w, 1, t);
    assert Stage1(ops, t) == [r1[0], r1[1], r1[2], r1[3], r1[4], r1[5], r1[6], r1[7]];
  }

  /** Stage 2 reads only W[0] and W[2] of the twiddle table. */
  lemma Stage2TwiddleUse(ops: Arith, w: seq<Complex>, v: seq<Complex>, t: seq<Complex>)
    requires |w| == N / 2 && |v| == N / 2 && |t| == N
    requires w[0] == v[0] && w[2] == v[2]
    ensures Stage2(ops, w, t) == Stage2(ops, v, t)
  {
  }

  /** Gathers `dataIn` into bit-reversed order in `dataOut`. */
  method BitReverse(dataIn: array<Complex>, dataOut: array<Complex>)
    requires dataIn.Length == N && dataOut.Length == N
    requires dataIn != dataOut
    modifies dataOut
    ensures dataOut[..] == Permute(dataIn[..])
    ensures dataIn[..] == old(dataIn[..])
  {
    var i := 0;
    while i < N
      invariant 0 <= i <= N
      invariant forall j :: 0 <= j < i ==> dataOut[j] == dataIn[Rev8[j]]
    {
      dataOut[i] := dataIn[Rev8[i]];
      i := i + 1;
    }
    assert forall j :: 0 <= j < N ==> dataOut[..][j] == Permute(dataIn[..])[j];
  }

  /** Each of the eight slots written exactly once. The stage methods below
      bump a slot's counter right after each assignment to that slot, and
      their loop invariants tie the array to the counters: a slot counted 1
      holds its stage result and a slot counted 0 still holds its old value. */
  const Once: seq<nat> := [1, 1, 1, 1, 1, 1, 1, 1]

  /** Stage 1 loop: `dst[i], dst[i+1]` from `src[i], src[i+1]` for i = 0, 2, 4, 6.
      The ghost result counts the writes to each slot of `dst`. */
  method ButterflyStage1(src: array<Complex>, dst: array<Complex>, ops: Arith)
    returns (ghost writes: seq<nat>)
    requires src.Length == N && dst.Length == N && src != dst
    modifies dst
    ensures dst[..] == Stage1(ops, src[..])
    ensures writes == Once
  {
    ghost var t := Stage1(ops, src[..]);
    writes := [0, 0, 0, 0, 0, 0, 0, 0];
    var i := 0;
    while i < N
      invariant 0 <= i <= N && i % 2 == 0
      invariant |writes| == N
      invariant forall p :: 0 <= p < N ==> writes[p] == if p < i then 1 else 0
      invariant forall p :: 0 <= p < N ==> dst[p] == if writes[p] == 1 then t[p] else old(dst[p])
    {
      dst[i] := ops.add(src[i], src[i + 1]);
      dst[i + 1] := ops.sub(src[i], src[i + 1]);
      writes := writes[i := writes[i] + 1][i + 1 := writes[i + 1] + 1];
      i := i + 2;
    }
    assert dst[..] == t;
  }

  /** The inner stage 2 loop for one block of four slots starting at `i`:
      for j in {0, 1}, `dst[i+j]` and `dst[i+2+j]` from `src[i+j]` and
      `src[i+j+2]` with twiddle `W[2j]`. Counts one more write for each slot
      of the block and leaves the other slots and their counts alone. */
  method ButterflyBlock2(src: array<Complex>, dst: array<Complex>, ops: Arith, w: seq<Complex>,
                         i: nat, ghost writes0: seq<nat>)
    returns (ghost writes: seq<nat>)
    requires src.Length == N && dst.Length == N && src != dst && |w| == N / 2
    requires (i == 0 || i == 4) && |writes0| == N
    modifies dst
    ensures |writes| == N
    ensures forall p :: 0 <= p < N ==> writes[p] == if i <= p < i + 4 then writes0[p] + 1 else writes0[p]
    ensures forall p :: 0 <= p < N ==>
      dst[p] == if i <= p < i + 4 then Stage2(ops, w, src[..])[p] else old(dst[p])
  {
    ghost var t := Stage2(ops, w, src[..]);
    writes := writes0;
    var j := 0;
    while j < 2
      invariant 0 <= j <= 2
      invariant |writes| == N
      invariant forall p :: 0 <= p < N ==>
        writes[p] == if i <= p < i + j || i + 2 <= p < i + 2 + j then writes0[p] + 1 else writes0[p]
      invariant forall p :: 0 <= p < N ==>
        dst[p] == if i <= p < i + j || i + 2 <= p < i + 2 + j then t[p] else old(dst[p])
    {
      dst[i + j] := ops.add(src[i + j], ops.mul(w[2 * j], src[i + j + 2]));
      dst[i + 2 + j] := ops.sub(src[i + j], ops.mul(w[2 * j], src[i + j + 2]));
      writes := writes[i + j := writes[i + j] + 1][i + 2 + j := writes[i + 2 + j] + 1];
      j := j + 1;
    }
  }

  /** Stage 2 loops: the block loop over i in {0, 4}, each block filled by
      `ButterflyBlock2`. */
  method ButterflyStage2(src: array<Complex>, dst: array<Complex>, ops: Arith, w: seq<Complex>)
    returns (ghost writes: seq<nat>)
    requires src.Length == N && dst.Length == N && src != dst && |w| == N / 2
    modifies dst
    ensures dst[..] == Stage2(ops, w, src[..])
    ensures writes == Once
  {
    ghost var t := Stage2(ops, w, src[..]);
    writes := [0, 0, 0, 0, 0, 0, 0, 0];
    var i := 0;
    while i < N
      invariant 0 <= i <= N && i % 4 == 0
      invariant |writes| == N
      invariant forall p :: 0 <= p < N ==> writes[p] == if p < i then 1 else 0
      invariant forall p :: 0 <= p < N ==> dst[p] == if writes[p] == 1 then t[p] else old(dst[p])
    {
      writes := ButterflyBlock2(src, dst, ops, w, i, writes);
      i := i + 4;
    }
    assert dst[..] == t;
  }

  /** Stage 3 loop: for i in 0..3, `dst[i]` and `dst[i+4]` from `src[i]` and
      `src[i+4]` with twiddle `W[i]`. */
  method ButterflyStage3(src: array<Complex>, dst: array<Complex>, ops: Arith, w: seq<Complex>)
    returns (ghost writes: seq<nat>)
    requires src.Length == N && dst.Length == N && src != dst && |w| == N / 2
    modifies dst
    ensures dst[..] == Stage3(ops, w, src[..])
    ensures writes == Once
  {
    ghost var t := Stage3(ops, w, src[..]);
    writes := [0, 0, 0, 0, 0, 0, 0, 0];
    var i := 0;
    while i < N / 2
      invariant 0 <= i <= N / 2
      invariant |writes| == N
      invariant forall p :: 0 <= p < N ==> writes[p] == if p < i || 4 <= p < 4 + i then 1 else 0
      invariant forall p :: 0 <= p < N ==> dst[p] == if writes[p] == 1 then t[p] else old(dst[p])
    {
      dst[i] := ops.add(src[i], ops.mul(w[i], src[i + 4]));
      dst[i + 4] := ops.sub(src[i], ops.mul(w[i], src[i + 4]));
      writes := writes[i := writes[i] + 1][i + 4 := writes[i + 4] + 1];
      i := i + 1;
    }
    assert dst[..] == t;
  }

  /** `FFT_stages`: the three butterfly stages from `input` (in bit-reversed
      order) into `output` through the local buffers `temp1` and `temp2`. The
      ghost results count each stage's writes per slot. `input` is read only
      by stage 1 and `output` written only by stage 3, so the two may even be
      the same array. */
  method FftStages(input: array<Complex>, output: array<Complex>, ops: Arith, w: seq<Complex>)
    returns (ghost writes1: seq<nat>, ghost writes2: seq<nat>, ghost writes3: seq<nat>)
    requires input.Length == N && output.Length == N && |w| == N / 2
    modifies output
    ensures output[..] == Transform(ops, w, old(input[..]))
    ensures input != output ==> input[..] == old(input[..])
    ensures writes1 == Once && writes2 == Once && writes3 == Once
  {
    var temp1 := new Complex[N];
    var temp2 := new Complex[N];
    writes1 := ButterflyStage1(input, temp1, ops);
    writes2 := ButterflyStage2(temp1, temp2, ops, w);
    writes3 := ButterflyStage3(temp2, output, ops, w);
  }
}
