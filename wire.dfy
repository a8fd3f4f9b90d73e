/** The wire format shared by the HLS kernel and its testbench: a complex
    single-precision sample travels as one 64-bit word, the raw bit pattern of
    the real part in bits 31..0 and that of the imaginary part in bits 63..32,
    next to the AXI-Stream `last` side-band bit that closes a frame.

    Floats are never interpreted here: `reinterpret_cast` between `float` and
    `uint32_t` only relabels bits, so a float is its 32-bit pattern. */
module Wire {

  /** Number of points of the transform, and of samples in one frame. */
  const N: nat := 8

  /** A complex sample, as the IEEE-754 bit patterns of its two parts. */
  datatype Complex = Complex(re: bv32, im: bv32)

  /** One stream beat: the 64-bit data word and the `last` flag. */
  datatype Framed = Framed(data: bv64, last: bool)

  /** What `std::complex<float>()` holds: (+0.0f, +0.0f). */
  const Zero: Complex := Complex(0, 0)

  /** Packs a sample: `(imag_bits << 32) | real_bits`. */
  function Encode(c: Complex): (w: bv64)
    ensures w & 0xFFFF_FFFF == c.re as bv64
    ensures (w >> 32) & 0xFFFF_FFFF == c.im as bv64
  {
    (c.im as bv64 << 32) | c.re as bv64
  }

  /** Splits a word: the real part from the low 32 bits, the imaginary part
      from the high 32 bits. Every word is a valid input. */
  function Decode(w: bv64): (c: Complex)
    ensures Encode(c) == w
  {
    Complex((w & 0xFFFF_FFFF) as bv32, ((w >> 32) & 0xFFFF_FFFF) as bv32)
  }

  /** Decoding an encoded sample gives back both bit patterns. */
  lemma DecodeEncode(c: Complex)
    ensures Decode(Encode(c)) == c
  {
  }

  /** Encoding is one-to-one, so the wire loses nothing. */
  lemma EncodeInjective(a: Complex, b: Complex)
    requires Encode(a) == Encode(b)
    ensures a == b
  {
    DecodeEncode(a);
    DecodeEncode(b);
  }

  /** A well-formed frame: sample i packed into word i, with `last` set on
      word N - 1 and on no other word. */
  function EncodeFrame(x: seq<Complex>): (s: seq<Framed>)
    requires |x| == N
    ensures |s| == N
    ensures forall i :: 0 <= i < N ==> Decode(s[i].data) == x[i]
    ensures forall i :: 0 <= i < N ==> (s[i].last <==> i == N - 1)
  {
    seq(N, i requires 0 <= i < N => Framed(Encode(x[i]), i == N - 1))
  }

  /** The samples carried by N stream words, whatever their `last` flags. */
  function DecodeFrame(s: seq<Framed>): (x: seq<Complex>)
    requires |s| == N
    ensures |x| == N
    ensures forall i :: 0 <= i < N ==> Encode(x[i]) == s[i].data
  {
    seq(N, i requires 0 <= i < N => Decode(s[i].data))
  }

  /** Decoding a well-formed frame returns the samples it was built from. */
  lemma DecodeEncodeFrame(x: seq<Complex>)
    requires |x| == N
    ensures DecodeFrame(EncodeFrame(x)) == x
  {
    var y := DecodeFrame(EncodeFrame(x));
    assert forall i :: 0 <= i < N ==> y[i] == x[i];
  }
}
