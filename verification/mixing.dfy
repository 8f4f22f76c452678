/**
  Mixing one input's scratch buffer into a node's output buffer: every
  sample of channel `j` is scaled by the node's gain for `j` and added to the
  output sample at the same interleaved index. Samples past the end of the
  interleaved region are left alone.

  `Accumulate` is the functional statement of one mixing pass; `MixInput`
  is the nested frame/channel loop that performs it.
*/
module Mixing {
  import opened Panning
  import opened Interleave

  /** A freshly allocated, zero-filled buffer of `n` samples. */
  function Zeros(n: nat): (z: seq<real>)
    ensures |z| == n
    ensures forall x :: 0 <= x < n ==> z[x] == 0.0
  {
    seq(n, _ => 0.0)
  }

  /**
    Settings under which the gain array can be indexed by every channel the
    mixing loop visits: the loop touches channel `j` only when there is at
    least one frame, and the gain array has two entries.
  */
  predicate StereoMixable(st: Settings) {
    st.frames == 0 || st.channels <= 2
  }

  /**
    Settings that are not stereo-mixable make the loop visit channel 2 of
    frame 0, an index the two-element gain array does not have.
  */
  lemma WideSettingsReachThirdChannel(st: Settings)
    requires !StereoMixable(st)
    ensures 0 < st.frames && 2 < st.channels
    ensures Index(st, 0, 2) < BufferSize(st)
  {
    IndexInBounds(st, 0, 2);
  }

  /**
    Every (frame, channel) pair the mixing loop visits indexes an output of
    `outLen` samples and the two-element gain array in range.
  */
  ghost predicate LoopIndicesInRange(outLen: nat, st: Settings) {
    forall i: nat, j: nat :: i < st.frames && j < st.channels ==> Index(st, i, j) < outLen && j < 2
  }

  /**
    The loop stays in range exactly when the settings are stereo-mixable and
    the output holds at least one cycle of samples.
  */
  lemma StereoMixableIffLoopInRange(outLen: nat, st: Settings)
    ensures StereoMixable(st) && BufferSize(st) <= outLen <==> LoopIndicesInRange(outLen, st)
  {
    if StereoMixable(st) && BufferSize(st) <= outLen {
      forall i: nat, j: nat | i < st.frames && j < st.channels
        ensures Index(st, i, j) < outLen && j < 2
      {
        IndexInBounds(st, i, j);
      }
    } else if !StereoMixable(st) {
      WideSettingsReachThirdChannel(st);
      assert !(Index(st, 0, 2) < outLen && 2 < 2);
    } else {
      var f, c := st.frames, st.channels;
      assert 0 < BufferSize(st);
      assert 0 < f && 0 < c;
      assert Index(st, f - 1, c - 1) == BufferSize(st) - 1 by {
        assert (f - 1) * c + c == f * c;
      }
      assert !(Index(st, f - 1, c - 1) < outLen);
    }
  }

  /**
    What one mixing pass needs: a scratch buffer of exactly one cycle, an
    output at least that long, and gains for every visited channel.
  */
  predicate CanMix(outLen: nat, scratchLen: nat, st: Settings) {
    && scratchLen == BufferSize(st)
    && BufferSize(st) <= outLen
    && StereoMixable(st)
  }

  /** The mixed value of the sample at interleaved position `x`. */
  function MixedSample(out: seq<real>, scratch: seq<real>, g: Gain, st: Settings, x: nat): real
    requires CanMix(|out|, |scratch|, st)
    requires x < BufferSize(st)
  {
    out[x] + scratch[x] * g.At(x % st.channels)
  }

  /** The output after one input's scratch buffer is mixed into it. */
  function Accumulate(out: seq<real>, scratch: seq<real>, g: Gain, st: Settings): (r: seq<real>)
    requires CanMix(|out|, |scratch|, st)
    ensures |r| == |out|
    // each (frame, channel) sample gains the scratch sample scaled by its channel's gain
    ensures forall i: nat, j: nat :: i < st.frames && j < st.channels ==>
      j < 2 && r[Index(st, i, j)] == out[Index(st, i, j)] + scratch[Index(st, i, j)] * g.At(j)
    // samples past the interleaved region are untouched
    ensures forall x :: BufferSize(st) <= x < |out| ==> r[x] == out[x]
  {
    AllIndicesInBounds(st);
    seq(|out|, x requires 0 <= x < |out| =>
      if x < BufferSize(st) then MixedSample(out, scratch, g, st, x) else out[x])
  }

  /** `IndexInBounds` for every pair at once. */
  lemma AllIndicesInBounds(st: Settings)
    ensures forall i: nat, j: nat :: i < st.frames && j < st.channels ==>
      Index(st, i, j) < BufferSize(st) && Index(st, i, j) % st.channels == j
  {
    forall i: nat, j: nat | i < st.frames && j < st.channels
      ensures Index(st, i, j) < BufferSize(st) && Index(st, i, j) % st.channels == j
    {
      IndexInBounds(st, i, j);
    }
  }

  /**
    Mixing with a zero scratch buffer leaves the output as it was: an input
    that produced silence contributes nothing.
  */
  lemma {:induction false} AccumulateSilence(out: seq<real>, g: Gain, st: Settings)
    requires CanMix(|out|, BufferSize(st), st)
    ensures Accumulate(out, Zeros(BufferSize(st)), g, st) == out
  {
    var r := Accumulate(out, Zeros(BufferSize(st)), g, st);
    forall x | 0 <= x < |out|
      ensures r[x] == out[x]
    {
      if x < BufferSize(st) {
        IndexCovers(st, x);
        assert r[Index(st, x / st.channels, x % st.channels)]
            == out[x] + 0.0 * g.At(x % st.channels);
      }
    }
  }

  /**
    The mixing loop of the source: for every frame `i` and channel `j`, in
    that order, add `scratch[i * channels + j] * gain[j]` into the output.
  */
  method MixInput(out: seq<real>, scratch: seq<real>, g: Gain, st: Settings) returns (r: seq<real>)
    requires CanMix(|out|, |scratch|, st)
    ensures r == Accumulate(out, scratch, g, st)
  {
    ghost var mixed := Accumulate(out, scratch, g, st);
    var frames, channels := st.frames, st.channels;
    r := out;
    var i := 0;
    while i < frames
      invariant i <= frames
      invariant |r| == |out|
      invariant forall x :: 0 <= x < |r| ==> r[x] == (if x < i * channels then mixed[x] else out[x])
    {
      var j := 0;
      while j < channels
        invariant j <= channels
        invariant |r| == |out|
        invariant forall x :: 0 <= x < |r| ==> r[x] == (if x < i * channels + j then mixed[x] else out[x])
      {
        var idx := i * channels + j;
        IndexInBounds(st, i, j);
        r := r[idx := r[idx] + scratch[idx] * g.At(j)];
        j := j + 1;
      }
      assert i * channels + channels == (i + 1) * channels;
      i := i + 1;
    }
    assert forall x :: 0 <= x < |r| ==> r[x] == mixed[x];
  }
}
