/**
  Processing-cycle settings and the interleaved buffer layout: a buffer holds
  `frames * channels` samples, and the sample of channel `j` in frame `i`
  sits at index `i * channels + j`.
*/
module Interleave {

  /** Frame count and channel count of one processing cycle. */
  datatype Settings = Settings(frames: nat, channels: nat)

  /** The number of samples in one buffer of these settings. */
  function BufferSize(st: Settings): nat {
    st.frames * st.channels
  }

  /** The interleaved index of channel `j` of frame `i`. */
  function Index(st: Settings, i: nat, j: nat): nat {
    i * st.channels + j
  }

  /** Euclidean division is unique: a quotient and an in-range remainder determine it. */
  lemma DivModUnique(a: nat, c: nat, q: nat, r: nat)
    requires r < c
    requires a == q * c + r
    ensures a / c == q
    ensures a % c == r
  {
    var q', r' := a / c, a % c;
    assert a == q' * c + r';
    assert (q' + 1) * c == q' * c + c;
    assert (q + 1) * c == q * c + c;
    MulMonotone(q' + 1, q, c);
    MulMonotone(q + 1, q', c);
  }

  /** Multiplying by the channel count is monotone. */
  lemma MulMonotone(a: nat, b: nat, c: nat)
    ensures a <= b ==> a * c <= b * c
  {
    if a <= b {
      assert b * c - a * c == (b - a) * c;
    }
  }

  /**
    Every in-range (frame, channel) pair lands inside the buffer, and its
    index gives the pair back by division and remainder.
  */
  lemma IndexInBounds(st: Settings, i: nat, j: nat)
    requires i < st.frames
    requires j < st.channels
    ensures Index(st, i, j) < BufferSize(st)
    ensures Index(st, i, j) / st.channels == i
    ensures Index(st, i, j) % st.channels == j
  {
    MulMonotone(i + 1, st.frames, st.channels);
    assert (i + 1) * st.channels == i * st.channels + st.channels;
    DivModUnique(Index(st, i, j), st.channels, i, j);
  }

  /** Distinct (frame, channel) pairs never share an index. */
  lemma IndexInjective(st: Settings, i1: nat, j1: nat, i2: nat, j2: nat)
    requires i1 < st.frames && j1 < st.channels
    requires i2 < st.frames && j2 < st.channels
    requires Index(st, i1, j1) == Index(st, i2, j2)
    ensures i1 == i2 && j1 == j2
  {
    IndexInBounds(st, i1, j1);
    IndexInBounds(st, i2, j2);
  }

  /** Every buffer position is the index of some in-range (frame, channel) pair. */
  lemma IndexCovers(st: Settings, idx: nat)
    requires idx < BufferSize(st)
    ensures 0 < st.channels
    ensures idx / st.channels < st.frames
    ensures Index(st, idx / st.channels, idx % st.channels) == idx
  {
    var c := st.channels;
    assert c != 0;
    MulMonotone(st.frames, idx / c, c);
  }

  /** The (frame, channel) pair that an in-range buffer position belongs to. */
  lemma FrameAndChannel(st: Settings, x: nat) returns (i: nat, j: nat)
    requires x < BufferSize(st)
    ensures i < st.frames && j < st.channels
    ensures Index(st, i, j) == x
  {
    IndexCovers(st, x);
    i, j := x / st.channels, x % st.channels;
  }
}
