/**
  The node tree and its default pull-and-mix evaluation.

  A node has a volume, a pan position, an ordered list of input nodes and a
  per-buffer processing step. Pulling a node into an output buffer computes
  its gain once, then for each input in order pulls that input into a fresh
  zeroed scratch buffer of one cycle and mixes the scratch into the output,
  and finally runs the node's processing step once on the mixed output.

  `Pull` is the recursive functional statement of a pull; `AudioRequested`
  is the imperative version, one loop over the inputs with a recursive call
  per input, proved to compute the same buffer.
*/
module Graph {
  import opened Panning
  import opened Interleave
  import opened Mixing

  /** An in-place buffer transformation: it never changes the buffer's length. */
  type Process = f: (seq<real>, Settings) -> seq<real> | forall b: seq<real>, st: Settings :: |f(b, st)| == |b|
    witness (b: seq<real>, st: Settings) => b

  /** A node's per-buffer processing step: the default does nothing. */
  datatype BufferProcess = Passthrough | Custom(apply: Process)

  /** Runs a node's processing step on its mixed output. */
  function ProcessBuffer(p: BufferProcess, b: seq<real>, st: Settings): (r: seq<real>)
    ensures |r| == |b|
    ensures p.Passthrough? ==> r == b
  {
    match p
    case Passthrough => b
    case Custom(f) => f(b, st)
  }

  /** A unit of the processing tree. Inputs are mixed in list order. */
  datatype Node = Node(vol: real, pan: real, inputs: seq<Node>, process: BufferProcess)

  const DefaultVol: real := 1.0
  const DefaultPan: real := 0.0

  /**
    A node that keeps every default except its inputs: it mixes its inputs
    at unity gain on both channels and does nothing after mixing.
  */
  function WithDefaults(inputs: seq<Node>): (n: Node)
    ensures n.vol == DefaultVol && n.pan == DefaultPan
    ensures n.inputs == inputs
    ensures NodeGain(n) == Gain(1.0, 1.0)
    ensures n.process.Passthrough?
  {
    Node(DefaultVol, DefaultPan, inputs, Passthrough)
  }

  /** The gain array of a node, read from its volume and pan. */
  function NodeGain(n: Node): Gain {
    VolPerChannel(n.vol, n.pan)
  }

  /**
    When a pull of `n` into a buffer of `outLen` samples cannot fail: a node
    without inputs touches no index at all; one with inputs writes every
    index below `frames * channels` of the output and reads the gain array at
    every channel index.
  */
  predicate CanPull(n: Node, outLen: nat, st: Settings): (ok: bool)
    // for a node with inputs, exactly the condition that every output and
    // gain index the mixing loop touches is in range
    ensures |n.inputs| > 0 ==> (ok <==> LoopIndicesInRange(outLen, st))
    // a node without inputs can always be pulled
    ensures |n.inputs| == 0 ==> ok
  {
    StereoMixableIffLoopInRange(outLen, st);
    |n.inputs| == 0 || (StereoMixable(st) && BufferSize(st) <= outLen)
  }

  /** The output buffer after `n` is pulled into `out`. */
  function Pull(n: Node, out: seq<real>, st: Settings): (r: seq<real>)
    requires CanPull(n, |out|, st)
    ensures |r| == |out|
    // with the default processing step, samples past the interleaved region are untouched
    ensures n.process.Passthrough? ==> forall x :: BufferSize(st) <= x < |out| ==> r[x] == out[x]
    // a source with the default processing step leaves the output as it was
    ensures n.process.Passthrough? && |n.inputs| == 0 ==> r == out
    decreases n, |n.inputs| + 1
  {
    var g := NodeGain(n);
    ProcessBuffer(n.process, MixInputs(n, g, |n.inputs|, out, st), st)
  }

  /** The output after the first `k` inputs of `n` are mixed in with gain `g`. */
  function MixInputs(n: Node, g: Gain, k: nat, out: seq<real>, st: Settings): (r: seq<real>)
    requires k <= |n.inputs|
    requires CanPull(n, |out|, st)
    ensures |r| == |out|
    ensures forall x :: BufferSize(st) <= x < |out| ==> r[x] == out[x]
    decreases n, k
  {
    if k == 0 then
      out
    else
      var scratch := Pull(n.inputs[k - 1], Zeros(BufferSize(st)), st);
      Accumulate(MixInputs(n, g, k - 1, out, st), scratch, g, st)
  }

  /**
    The default `audio_requested`: the gain is read once, each input is
    pulled into a fresh zeroed buffer and mixed in, in order, and the
    processing step runs once at the end.
  */
  method AudioRequested(n: Node, out: seq<real>, st: Settings) returns (r: seq<real>)
    requires CanPull(n, |out|, st)
    ensures r == Pull(n, out, st)
    decreases n
  {
    var bufferSize := st.frames * st.channels;
    var g := VolPerChannel(n.vol, n.pan);
    r := out;
    var k := 0;
    while k < |n.inputs|
      invariant k <= |n.inputs|
      invariant r == MixInputs(n, g, k, out, st)
    {
      var working := Zeros(bufferSize);
      working := AudioRequested(n.inputs[k], working, st);
      r := MixInput(r, working, g, st);
      k := k + 1;
    }
    r := ProcessBuffer(n.process, r, st);
  }

  /**
    What the `children` add at interleaved position `x` when mixed with the
    channel gain `gain`: the sum, in order, of each child's signal at `x`
    (pulled into a fresh zeroed buffer) scaled by the gain.
  */
  ghost function Contribution(children: seq<Node>, gain: real, st: Settings, x: nat): real
    requires x < BufferSize(st)
    requires StereoMixable(st)
    decreases children
  {
    if |children| == 0 then
      0.0
    else
      Contribution(children[..|children| - 1], gain, st, x)
        + Pull(children[|children| - 1], Zeros(BufferSize(st)), st)[x] * gain
  }

  /**
    After the first `k` inputs are mixed in, the sample of channel `j` in
    frame `i` is its old value plus those inputs' contributions with the
    gain of channel `j`.
  */
  lemma {:induction false} MixInputsAddsContributions(n: Node, g: Gain, k: nat, out: seq<real>, st: Settings, i: nat, j: nat)
    requires k <= |n.inputs|
    requires StereoMixable(st)
    requires BufferSize(st) <= |out|
    requires i < st.frames && j < st.channels
    ensures Index(st, i, j) < BufferSize(st) && j < 2
    ensures MixInputs(n, g, k, out, st)[Index(st, i, j)]
         == out[Index(st, i, j)] + Contribution(n.inputs[..k], g.At(j), st, Index(st, i, j))
    decreases k
  {
    IndexInBounds(st, i, j);
    if k == 0 {
      assert n.inputs[..0] == [];
    } else {
      MixInputsAddsContributions(n, g, k - 1, out, st, i, j);
      assert n.inputs[..k][..k - 1] == n.inputs[..k - 1];
    }
  }

  /**
    With the default processing step, a pull adds to each sample of channel
    `j` the contributions of all the node's inputs with the node's gain for
    `j`; everything else in the output stays as it was.
  */
  lemma PullAddsContributions(n: Node, out: seq<real>, st: Settings, i: nat, j: nat)
    requires n.process.Passthrough?
    requires StereoMixable(st)
    requires BufferSize(st) <= |out|
    requires i < st.frames && j < st.channels
    ensures Index(st, i, j) < BufferSize(st) && j < 2
    ensures Pull(n, out, st)[Index(st, i, j)]
         == out[Index(st, i, j)] + Contribution(n.inputs, NodeGain(n).At(j), st, Index(st, i, j))
  {
    MixInputsAddsContributions(n, NodeGain(n), |n.inputs|, out, st, i, j);
    assert n.inputs[..|n.inputs|] == n.inputs;
  }

  /**
    A node with a single input and the default processing step, pulled into
    a zeroed buffer, reproduces its input's signal scaled sample by sample by
    the node's gain.
  */
  lemma SingleInputIsScaledCopy(n: Node, st: Settings, i: nat, j: nat)
    requires n.process.Passthrough?
    requires |n.inputs| == 1
    requires StereoMixable(st)
    requires i < st.frames && j < st.channels
    ensures Index(st, i, j) < BufferSize(st) && j < 2
    ensures Pull(n, Zeros(BufferSize(st)), st)[Index(st, i, j)]
         == Pull(n.inputs[0], Zeros(BufferSize(st)), st)[Index(st, i, j)] * NodeGain(n).At(j)
  {
    PullAddsContributions(n, Zeros(BufferSize(st)), st, i, j);
    assert n.inputs[..0] == [];
  }

  /** A processing step that fills the buffer with the constant `v`. */
  function Fill(v: real): Process {
    (b: seq<real>, st: Settings) => seq(|b|, _ => v)
  }

  /** A source node emitting the constant `v` on every sample. */
  function ConstantSource(v: real): Node {
    Node(DefaultVol, DefaultPan, [], Custom(Fill(v)))
  }

  /**
    Two inputs that each emit the constant `v`, mixed with unity gain into a
    zeroed buffer, give `2 * v` at every sample.
  */
  lemma TwoConstantSourcesDouble(v: real, st: Settings)
    requires StereoMixable(st)
    ensures forall x :: 0 <= x < BufferSize(st) ==>
      Pull(WithDefaults([ConstantSource(v), ConstantSource(v)]), Zeros(BufferSize(st)), st)[x] == 2.0 * v
  {
    var n := WithDefaults([ConstantSource(v), ConstantSource(v)]);
    var zeros := Zeros(BufferSize(st));
    DefaultGainIsUnity();
    forall x | 0 <= x < BufferSize(st)
      ensures Pull(n, zeros, st)[x] == 2.0 * v
    {
      var i, j := FrameAndChannel(st, x);
      PullAddsContributions(n, zeros, st, i, j);
      var src := ConstantSource(v);
      assert Pull(src, zeros, st)[x] == v;
      assert n.inputs[..|n.inputs| - 1] == [src];
      assert [src][..0] == [];
      assert Contribution([src], 1.0, st, x) == Contribution([], 1.0, st, x) + v * 1.0;
      assert Contribution(n.inputs, 1.0, st, x) == Contribution([src], 1.0, st, x) + v * 1.0;
    }
  }

  /** Mixing reads only a node's inputs, not its volume, pan or processing step. */
  lemma {:induction false} MixInputsReadsOnlyInputs(n: Node, m: Node, g: Gain, k: nat, out: seq<real>, st: Settings)
    requires n.inputs == m.inputs
    requires k <= |n.inputs|
    requires CanPull(n, |out|, st)
    ensures MixInputs(n, g, k, out, st) == MixInputs(m, g, k, out, st)
    decreases k
  {
    if k > 0 {
      MixInputsReadsOnlyInputs(n, m, g, k - 1, out, st);
    }
  }

  /**
    The processing step runs exactly once, on the fully mixed output: a pull
    is the processing step applied to the pull of the same node with the
    default processing step. This factoring lifts facts about default-step
    nodes to nodes with any processing step.
  */
  lemma ProcessRunsOnceAfterMixing(n: Node, out: seq<real>, st: Settings)
    requires CanPull(n, |out|, st)
    ensures Pull(n, out, st) == ProcessBuffer(n.process, Pull(n.(process := Passthrough), out, st), st)
  {
    MixInputsReadsOnlyInputs(n, n.(process := Passthrough), NodeGain(n), |n.inputs|, out, st);
  }

  /** The contribution of a concatenation is the sum of the parts' contributions. */
  lemma {:induction false} ContributionAppend(a: seq<Node>, b: seq<Node>, gain: real, st: Settings, x: nat)
    requires x < BufferSize(st)
    requires StereoMixable(st)
    ensures Contribution(a + b, gain, st, x) == Contribution(a, gain, st, x) + Contribution(b, gain, st, x)
    decreases |b|
  {
    if |b| == 0 {
      assert a + b == a;
    } else {
      var b' := b[..|b| - 1];
      ContributionAppend(a, b', gain, st, x);
      assert (a + b)[..|a + b| - 1] == a + b';
    }
  }

  /**
    The contribution of a group of inputs does not depend on their order:
    any rearrangement of the same inputs contributes the same sum.
  */
  lemma {:induction false} ContributionPermutation(a: seq<Node>, b: seq<Node>, gain: real, st: Settings, x: nat)
    requires x < BufferSize(st)
    requires StereoMixable(st)
    requires multiset(a) == multiset(b)
    ensures Contribution(a, gain, st, x) == Contribution(b, gain, st, x)
    decreases |a|
  {
    if |a| == 0 {
      assert |b| == |multiset(b)| == 0;
    } else {
      var e, rest := a[|a| - 1], a[..|a| - 1];
      assert e in multiset(b);
      var k :| 0 <= k < |b| && b[k] == e;
      var front, back := b[..k], b[k + 1..];
      RemoveLast(a, b, k);
      ContributionPermutation(rest, front + back, gain, st, x);
      // both sides split into the remaining inputs and the moved one
      assert a == rest + [e];
      ContributionAppend(rest, [e], gain, st, x);
      assert b == (front + [e]) + back;
      ContributionAppend(front + [e], back, gain, st, x);
      ContributionAppend(front, [e], gain, st, x);
      ContributionAppend(front, back, gain, st, x);
    }
  }

  /**
    Taking the last element of `a` out of `a`, and the same element out of
    a rearrangement `b` of `a`, leaves rearrangements of each other.
  */
  lemma RemoveLast<T>(a: seq<T>, b: seq<T>, k: nat)
    requires multiset(a) == multiset(b)
    requires 0 < |a| && k < |b| && b[k] == a[|a| - 1]
    ensures multiset(a[..|a| - 1]) == multiset(b[..k] + b[k + 1..])
  {
    var e := a[|a| - 1];
    assert a == a[..|a| - 1] + [e];
    assert b == b[..k] + [e] + b[k + 1..];
    calc {
      multiset(a[..|a| - 1]);
      multiset(a) - multiset{e};
      multiset(b) - multiset{e};
      multiset(b[..k]) + multiset(b[k + 1..]);
      multiset(b[..k] + b[k + 1..]);
    }
  }

  /**
    In exact arithmetic the order of the inputs does not matter, whatever
    the node's processing step: pulling a node whose inputs are any
    rearrangement of another's gives the same output.
  */
  lemma InputOrderIrrelevant(n: Node, a: seq<Node>, b: seq<Node>, out: seq<real>, st: Settings)
    requires CanPull(n.(inputs := a), |out|, st)
    requires multiset(a) == multiset(b)
    ensures Pull(n.(inputs := a), out, st) == Pull(n.(inputs := b), out, st)
  {
    if |a| == 0 {
      assert |b| == |multiset(b)| == 0;
    } else {
      assert |b| == |multiset(b)| == |multiset(a)| == |a|;
      DefaultStepInputOrderIrrelevant(n.(process := Passthrough), a, b, out, st);
      ProcessRunsOnceAfterMixing(n.(inputs := a), out, st);
      ProcessRunsOnceAfterMixing(n.(inputs := b), out, st);
    }
  }

  /** `InputOrderIrrelevant` for a node with the default processing step. */
  lemma DefaultStepInputOrderIrrelevant(n: Node, a: seq<Node>, b: seq<Node>, out: seq<real>, st: Settings)
    requires n.process.Passthrough?
    requires StereoMixable(st)
    requires BufferSize(st) <= |out|
    requires multiset(a) == multiset(b)
    ensures Pull(n.(inputs := a), out, st) == Pull(n.(inputs := b), out, st)
  {
    var p, q := Pull(n.(inputs := a), out, st), Pull(n.(inputs := b), out, st);
    forall x | 0 <= x < |out|
      ensures p[x] == q[x]
    {
      if x < BufferSize(st) {
        var i, j := FrameAndChannel(st, x);
        PullAddsContributions(n.(inputs := a), out, st, i, j);
        PullAddsContributions(n.(inputs := b), out, st, i, j);
        ContributionPermutation(a, b, NodeGain(n).At(j), st, x);
      }
    }
  }

  /** Exchanging two groups of inputs leaves the pulled output unchanged. */
  lemma InputGroupsCommute(n: Node, a: seq<Node>, b: seq<Node>, out: seq<real>, st: Settings)
    requires CanPull(n.(inputs := a + b), |out|, st)
    ensures Pull(n.(inputs := a + b), out, st) == Pull(n.(inputs := b + a), out, st)
  {
    assert multiset(a + b) == multiset(b + a);
    InputOrderIrrelevant(n, a + b, b + a, out, st);
  }

  /**
    Pulling a node whose inputs are two groups one after the other adds both
    groups' contributions.
  */
  lemma PullOfConcatenatedInputs(n: Node, a: seq<Node>, b: seq<Node>, out: seq<real>, st: Settings, i: nat, j: nat)
    requires n.process.Passthrough?
    requires StereoMixable(st)
    requires BufferSize(st) <= |out|
    requires i < st.frames && j < st.channels
    ensures Index(st, i, j) < BufferSize(st) && j < 2
    ensures Pull(n.(inputs := a + b), out, st)[Index(st, i, j)]
         == out[Index(st, i, j)]
            + Contribution(a, NodeGain(n).At(j), st, Index(st, i, j))
            + Contribution(b, NodeGain(n).At(j), st, Index(st, i, j))
  {
    var m := n.(inputs := a + b);
    PullAddsContributions(m, out, st, i, j);
    assert NodeGain(m) == NodeGain(n);
    ContributionAppend(a, b, NodeGain(n).At(j), st, Index(st, i, j));
  }
}
