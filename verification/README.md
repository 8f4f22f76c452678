# dsp-chain node evaluation, modelled in Dafny

This project models the default evaluation of the `Node` trait of the
dsp-chain audio library: how a tree of processing nodes answers one request
for audio. A node has a volume, a stereo pan position, an ordered list of
input nodes and a per-buffer processing step. When it is pulled into an
interleaved output buffer, it computes a two-element gain array from its
volume and pan once. Then, for each input in order, it pulls that input
into a fresh zero-filled scratch buffer of `frames * channels` samples and
adds every scratch sample, scaled by its channel's gain, into the output at
the same interleaved index `frame * channels + channel`. Last, it runs its
processing step once on the mixed output. The default processing step does
nothing.

Modules:

- `Panning` (`panning.dfy`): the gain law `VolPerChannel` and its properties.
- `Interleave` (`interleave.dfy`): the cycle settings and the interleaved index `i * channels + j`.
  It proves that the index is in range, one-to-one and onto the buffer.
- `Mixing` (`mixing.dfy`): one mixing pass of one input. `Accumulate` is the pure statement and
  `MixInput` is the nested frame/channel loop, proved equal to it.
- `Graph` (`node.dfy`): the `Node` tree datatype and the recursive pull. `Pull` is the pure
  statement and `AudioRequested` is the loop over inputs with one recursive call per input,
  proved equal to it. The lemmas give the closed form of a pull and worked examples of the gain law and of mixing.

Samples are `real`s, so every sum and product is exact. Buffers are
`seq<real>` values: an operation that mutates its output buffer in place is
modelled as a function from the old buffer to the new one. A node's
processing step is `Passthrough` (the default no-op) or a `Custom`
length-preserving function of the buffer and the settings. A source that
synthesises its own signal is modelled as a node without inputs whose
processing step writes the signal.

The source does not return errors. It panics when it indexes past the end
of a buffer or of the two-element gain array. The model turns the
conditions that avoid a panic into the precondition `CanPull`. A node
without inputs touches no index, so it accepts any buffer and any settings.
A node with inputs needs an output of at least `frames * channels` samples.
It also needs at most two channels, unless there are no frames at all.
The model accepts an output of at least `frames * channels` samples, which
is all the loop indexes; samples past that region are left untouched.

## Model

| member | source | states |
|---|---|---|
| Panning.VolPerChannel | src/node.rs:48-54 | The channel the pan points toward gets the full volume (right when pan >= 0, left when pan <= 0). The other channel is attenuated linearly and reaches 0 at pan +1 or -1. Nothing is clamped: past +1 the left gain is vol*(pan-1), and past -1 the right gain is vol*(1+pan), negative for positive vol. |
| Panning.VolPerChannelIsLinearPanLaw | src/node.rs:48-54 | On pan in [-1, 1] the gain equals an independently stated linear pan law: vol*min(1, 1-pan) on the left and vol*min(1, 1+pan) on the right. |
| Panning.DefaultGainIsUnity | src/node.rs:48-54 | Volume 1 and pan 0 give the gain [1, 1]. |
| Panning.ExtremePansSilenceOneChannel | src/node.rs:48-54 | Pan 1 gives [0, vol] and pan -1 gives [vol, 0]. |
| Panning.HalfRightAtDoubleVolume | src/node.rs:48-54 | Pan 0.5 with volume 2 gives [1, 2]. |
| Panning.GainBounded | src/node.rs:48-54 | For vol >= 0 and pan in [-1, 1], both gains lie in [0, vol] and at least one of them equals vol. |
| Panning.GainMirrorSymmetric | src/node.rs:48-54 | For pan in [-1, 1], the gain at -pan is the gain at pan with left and right exchanged. |
| Panning.GainAsymmetricOutsideRange | src/node.rs:48-54 | Outside [-1, 1] the mirror symmetry fails: pan 2 gives [1, 1] but pan -2 gives [1, -1]. |
| Interleave.IndexInBounds | src/node.rs:71-74 | For i < frames and j < channels, the index i*channels + j is below frames*channels, and division and remainder by channels give back i and j. |
| Interleave.IndexInjective | src/node.rs:71-74 | Two in-range (frame, channel) pairs with the same interleaved index are the same pair. |
| Interleave.IndexCovers | src/node.rs:62-74 | Every position below frames*channels is the index of some in-range (frame, channel) pair, so each position is visited exactly once per input. |
| Mixing.WideSettingsReachThirdChannel | src/node.rs:71-76 | With at least one frame and more than two channels, the loop reaches channel 2, which the two-element gain array does not have. So the channel bound in the precondition is exactly what the loop needs. |
| Mixing.Accumulate | src/node.rs:71-79 | After one input is mixed in, the sample of frame i, channel j is its old value plus scratch[i*channels+j] times gain[j]. The length is unchanged and samples past frames*channels are untouched. |
| Mixing.AccumulateSilence | src/node.rs:71-79 | Mixing in an all-zero scratch buffer leaves the output unchanged. |
| Mixing.MixInput | src/node.rs:71-79 | The nested frame/channel loop with in-place accumulation computes exactly the buffer `Accumulate` describes. |
| Graph.ProcessBuffer | src/node.rs:85-89 | A processing step preserves the buffer length, and the default step leaves the buffer unchanged. |
| Graph.Pull | src/node.rs:61-83 | A pull preserves the output length, and recursion terminates on every finite tree. With the default processing step, samples past frames*channels are untouched, and a node without inputs leaves the output unchanged. |
| Graph.MixInputs | src/node.rs:65-80 | Mixing the first k inputs preserves the output length and leaves samples past frames*channels untouched. |
| Graph.AudioRequested | src/node.rs:61-83 | The imperative default pull returns exactly the buffer `Pull` describes. It reads the gain once before the loop, pulls each input into a fresh zeroed buffer, mixes the inputs in order, and runs the processing step once at the end. |
| Graph.MixInputsAddsContributions | src/node.rs:65-80 | After the first k inputs are mixed in, output[i*channels+j] is its old value plus the in-order sum, over those inputs, of the input's zero-started pull at that index times gain[j]. |
| Graph.PullAddsContributions | src/node.rs:61-89 | With the default processing step, output[i*channels+j] after a pull is its old value plus the in-order sum, over all inputs, of the input's zero-started pull at that index times gain[j]. |
| Graph.SingleInputIsScaledCopy | src/node.rs:61-83 | A node with one input and the default processing step, pulled into a zeroed buffer, reproduces the input's signal scaled by gain[j] sample for sample. |
| Graph.TwoConstantSourcesDouble | src/node.rs:61-83 | Two inputs that each emit the constant v, mixed by a default node into a zeroed buffer, give 2v at every sample. |
| Graph.MixInputsReadsOnlyInputs | src/node.rs:65-80 | Mixing depends on a node's inputs only, not on its volume, pan or processing step (the gain is passed in). |
| Graph.ProcessRunsOnceAfterMixing | src/node.rs:80-83 | A pull equals the node's processing step applied once to the result of the same pull with the default step. It is the factoring that lifts results about default-step nodes (such as input order) to nodes with any processing step. |
| Graph.ContributionAppend | src/node.rs:66-80 | The contribution of two groups of inputs, one after the other, is the sum of the groups' contributions. |
| Graph.PullOfConcatenatedInputs | src/node.rs:66-80 | Pulling a node whose inputs are group a followed by group b adds both groups' contributions to each sample. |
| Graph.ContributionPermutation | src/node.rs:66-80 | Any rearrangement of a group of inputs (same multiset) contributes the same sum at every position. |
| Graph.InputOrderIrrelevant | src/node.rs:66-83 | In exact arithmetic, pulling a node whose inputs are any rearrangement of another input list gives the same output, whatever the node's processing step. |
| Graph.DefaultStepInputOrderIrrelevant | src/node.rs:66-80 | For a node with the default processing step, any rearrangement of its inputs leaves every output sample unchanged. |
| Graph.InputGroupsCommute | src/node.rs:66-83 | Exchanging two groups of inputs (a + b against b + a) leaves the pulled output unchanged. |
| Graph.WithDefaults | src/node.rs:25-42 | A node with the default volume (1), pan (0) and processing step keeps the given inputs, mixes them with gain [1, 1] and does nothing after mixing. |
| Graph.CanPull | src/node.rs:71-77 | A node with inputs can be pulled exactly when every output index i*channels+j and gain index j the mixing loop touches is in range. A node without inputs can always be pulled. |
| Mixing.StereoMixableIffLoopInRange | src/node.rs:71-77 | All loop indices are in range if and only if the settings have at most two channels (or no frames) and the output holds at least frames*channels samples. |
| Mixing.Zeros | src/node.rs:64-67 | A fresh buffer of n samples, all zero; the scratch buffer of each input is Zeros(frames*channels). |

## Left out

- Floating-point rounding: samples and gains are exact reals. The `to_f32`/`from_f32` sample conversions and their `unwrap` calls (src/node.rs:75-77) are not modelled, and neither is f32 overflow to infinity or NaN.
- Input order: the order-independence lemma holds only in exact arithmetic. In the source the mixing order can change the rounding of f32 sums.
- The generic `Sample` and `DspBuffer`/`AudioBuffer` types (src/node.rs:2-7, 22-23) come from other crates, which are not part of this model. Buffers are `seq<real>`.
- `Settings` comes from another crate. Only its frame and channel counts are modelled, as unbounded naturals, and `frames * channels` is assumed not to overflow `usize`.
- The `InputNode` trait (src/node.rs:93-98) declares a method without a body and gives it no behaviour.
- Overriding `audio_requested` (generators, effects) or `vol_per_channel` (src/node.rs:48) is out of scope: every node mixes with the default gain law. Only the defaults are modelled. A processing step may be overridden, but only as a pure length-preserving function, so state a node keeps in `&mut self` across calls is not modelled.
- `vol()` and `pan()` are stored values of the node, not methods that could give different answers on different calls.
- The Rust borrow structure of `inputs()` (a vector of mutable references) is replaced by a finite tree datatype. A node cannot appear as an input of itself, so the model has no cycles.
- Panics are not modelled as results. The conditions that avoid them form the precondition `CanPull`, and a call that would panic is outside the model.
