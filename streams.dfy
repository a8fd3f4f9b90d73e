/** An `hls::stream<axis_data>` channel: a first-in first-out queue of beats.
    A read from an empty stream blocks in hardware; here the caller must show
    that a beat is there. */
module Streams {
  import opened Wire

  class Stream {
    /** The beats written and not yet read, oldest first. */
    var contents: seq<Framed>

    constructor ()
      ensures contents == []
    {
      contents := [];
    }

    /** `read()`: removes and returns the oldest beat. */
    method Read() returns (x: Framed)
      requires contents != []
      modifies this
      ensures x == old(contents)[0]
      ensures contents == old(contents)[1..]
    {
      x := contents[0];
      contents := contents[1..];
    }

    /** `write(x)`: appends a beat. */
    method Write(x: Framed)
      modifies this
      ensures contents == old(contents) + [x]
    {
      contents := contents + [x];
    }
  }

  /** Packs eight samples and writes them in order, with `last` on the final
      beat only: the output loop of `fft` and the input loop of the testbench. */
  method WriteFrame(stream: Stream, samples: array<Complex>)
    requires samples.Length == N
    modifies stream
    ensures stream.contents == old(stream.contents) + EncodeFrame(samples[..])
  {
    ghost var words := EncodeFrame(samples[..]);
    var i := 0;
    while i < N
      invariant 0 <= i <= N
      invariant stream.contents == old(stream.contents) + words[..i]
    {
      stream.Write(Framed(Encode(samples[i]), i == N - 1));
      assert words[..i + 1] == words[..i] + [Framed(Encode(samples[i]), i == N - 1)];
      i := i + 1;
    }
    assert words[..N] == words;
  }
}
