# Quantized parametric ReLU (Ristretto PReLU layer)

This project models the Ristretto variant of Caffe's parametric-ReLU
layer. The layer computes `y = max(x, 0) + a * min(x, 0)`, with one
learnable slope `a` per channel or a single shared slope. The slope is
kept at full precision. On every forward pass the layer copies it into a
shadow blob and quantizes the shadow with the layer's precision settings.
Outputs and input gradients use the quantized shadow. The slope gradient
is added to the full-precision slope's gradient.

Four modules:

- `Blobs` (`blob.dfy`) is the tensor container. A `Blob` class has a
  shape and two arrays of equal length, `data` and `diff`. The module also
  defines the element count of a shape, the count from an axis on, and
  reshaping.
- `Quantization` (`quantization.dfy`) covers the constructor's settings.
  The precision mode, rounding scheme and numeric settings are datatypes.
  `Configure` is the constructor's dispatch on the precision mode.
  `ForwardRounding` picks the forward pass's rounding scheme from the phase.
- `PReLURules` (`prelu_rules.dfy`) holds the pure rules:
  - the slope index of a flat element;
  - the per-element forward, input-gradient and slope-gradient formulas;
  - `ForwardOutput`, `BottomDiff` and `SlopeDiffAccumulated`, the
    whole-tensor results the loops must produce;
  - lemmas about these functions. Every gradient term lands in exactly one
    slope. A shared slope collects all terms. A per-channel slope sees only
    its own channel.
- `PReLURistretto` (`prelu_layer.dfy`) holds the layer itself.
  - The class `PReLURistrettoLayer` has the layer's member variables as
    fields: the slope (`blobs`), the quantized shadow, the multiplier, the
    in-place snapshot buffer and the propagation flags.
  - Its methods are the constructor, `LayerSetUp`, `Reshape`, `Forward` and
    `Backward`.
  - Each loop is a method over arrays with invariants, proved against the
    specification functions.
  - `InPlaceParity` shows that in-place computation gives the same input
    gradient as computation on two distinct blobs, given the same quantizer
    outcome (the same quantized slope).
  - `CreateAndStep` runs the whole life of a new layer: construction,
    setup, reshape, forward and backward.

Values are Dafny `real`s. The quantizer is passed in as a function value,
because it belongs to the base layer. The only thing required of it is
that it returns as many values as it receives. Failures of the source's
`CHECK` macros in `LayerSetUp` and `Reshape` are returned as `Fail`
outcomes that name the failed condition. An unknown precision mode is an
error result of `Configure`. The layer's constructor requires a known
mode, because the source aborts on an unknown one.

## Model

| member | source | states |
|---|---|---|
| `Quantization.Configure` | src/caffe/ristretto/layers/prelu_ristretto_layer.cpp:12-38 | Precision and rounding are taken from the configuration. Each mode copies exactly its own numeric settings and every other setting keeps its inherited value. The result is an error exactly when the mode is unknown, and the error carries the mode's code. |
| `Quantization.PowerOf2KeepsParamFixedPoint` | src/caffe/ristretto/layers/prelu_ristretto_layer.cpp:27-34 | Under power-of-two weights the parameter bit-width and fractional length are never taken from the configuration. |
| `Quantization.ForwardRounding` | src/caffe/ristretto/layers/prelu_ristretto_layer.cpp:132 | The test phase uses the configured rounding scheme and any other phase uses stochastic rounding. Rounding is to nearest exactly when the phase is test and nearest is configured. |
| `Blobs.InnerDim` | src/caffe/ristretto/layers/prelu_ristretto_layer.cpp:121-123 | `count(2)` of a blob with at least two axes. In a non-empty blob it and the channel count are positive, so the channel index is defined. |
| `PReLURules.ChannelIndex` | src/caffe/ristretto/layers/prelu_ristretto_layer.cpp:141-143 | The slope index of element `i` is below the number of slopes. It is 0 for a shared slope and the element's channel `(i / dim) % channels` otherwise. |
| `PReLURules.ChannelOfCoordinates` | src/caffe/ristretto/layers/prelu_ristretto_layer.cpp:143 | With per-channel slopes, the element at coordinates (n, ch, s) gets slope index `ch`. |
| `PReLURules.PReLU` | src/caffe/ristretto/layers/prelu_ristretto_layer.cpp:144-145 | A positive input passes unchanged; any other input is multiplied by the slope. |
| `PReLURules.PReLUGrad` | src/caffe/ristretto/layers/prelu_ristretto_layer.cpp:187-188 | The input gradient is the incoming gradient for a positive input, and the incoming gradient times the slope otherwise. |
| `PReLURules.SlopeGradTerm` | src/caffe/ristretto/layers/prelu_ristretto_layer.cpp:179 | An element adds nothing to its slope's gradient when its input is positive, and g * x otherwise. |
| `PReLURules.PReLUDerivatives` | src/caffe/ristretto/layers/prelu_ristretto_layer.cpp:175-190 | The backward formulas are the derivatives of the forward rule: the output is the input times the unit-signal gradient, and the output is linear in the slope with coefficient the slope term. |
| `PReLURules.PerChannelSlopeUsed` | src/caffe/ristretto/layers/prelu_ristretto_layer.cpp:141-146 | With per-channel slopes, the forward output and the input gradient at coordinates (n, ch, s) use the slope of channel `ch`. |
| `PReLURules.SharedSlopeUsed` | src/caffe/ristretto/layers/prelu_ristretto_layer.cpp:139-141 | With a shared slope, every output and every input gradient uses slope 0. |
| `PReLURules.SlopeGradConserved` | src/caffe/ristretto/layers/prelu_ristretto_layer.cpp:175-181 | The slope gradients gathered over all slopes add up to the sum of every element's term: each term lands in exactly one slope. |
| `PReLURules.SharedSlopeGradIsTotal` | src/caffe/ristretto/layers/prelu_ristretto_layer.cpp:175-181 | The gradient of a shared slope is the sum of every element's term. |
| `PReLURules.SlopeGradLocal` | src/caffe/ristretto/layers/prelu_ristretto_layer.cpp:175-181 | A slope's gradient depends only on the inputs and incoming gradients of the elements that use that slope. |
| `PReLURistretto.SlopeShape` | src/caffe/ristretto/layers/prelu_ristretto_layer.cpp:56-61 | The slope blob holds as many values as there are slopes: one if shared, one per channel otherwise. |
| `PReLURistretto.Resized` | src/caffe/ristretto/layers/prelu_ristretto_layer.cpp:84 | Resizing the propagation flags keeps the existing entries and sets the new ones to the fill value. |
| `PReLURistretto.NewSlope` | src/caffe/ristretto/layers/prelu_ristretto_layer.cpp:55-72 | A fresh slope blob of the slope shape. It is filled with the configured constant, or with 0.25 when no filler is configured. |
| `PReLURistretto.QuantizeInPlace` | src/caffe/ristretto/layers/prelu_ristretto_layer.cpp:135 | The weights array ends up holding the quantizer's output for its old values. |
| `PReLURistretto.ApplyPReLU` | src/caffe/ristretto/layers/prelu_ristretto_layer.cpp:141-146 | The output is `ForwardOutput` of the input as it was on entry, even when the output array is the input array. |
| `PReLURistretto.GatheredStep` | src/caffe/ristretto/layers/prelu_ristretto_layer.cpp:177-180 | Adding one element's term to its own slope extends the gathered gradients by that element. |
| `PReLURistretto.AccumulateSlopeGrad` | src/caffe/ristretto/layers/prelu_ristretto_layer.cpp:175-181 | Each slope's gradient ends up as its old value plus the terms of all elements that use it (`SlopeDiffAccumulated`). |
| `PReLURistretto.PropagateToBottom` | src/caffe/ristretto/layers/prelu_ristretto_layer.cpp:183-190 | The input gradient is `BottomDiff` of the incoming gradient as it was on entry, even when the two arrays are the same. |
| `PReLURistretto.PReLURistrettoLayer.constructor` | src/caffe/ristretto/layers/prelu_ristretto_layer.cpp:9-39 | Records the phase and configuration and holds the settings `Configure` produces. Loaded parameters are kept, and no shadow or flags exist yet. The multiplier and the snapshot buffer are the layer's own newly allocated blobs. |
| `PReLURistretto.PReLURistrettoLayer.LayerSetUp` | src/caffe/ristretto/layers/prelu_ristretto_layer.cpp:41-98 | Fails on an input with fewer than two axes and then changes nothing. Otherwise it sets the sharing flag and keeps loaded parameters or creates one filled slope. It fails on a slope whose size disagrees with the configuration. On success the layer is ready: flags resized with `true`, the multiplier all ones with one entry per sample element, and a fresh shadow of the configured slope shape. A created slope and the shadow come with newly allocated storage. |
| `PReLURistretto.PReLURistrettoLayer.CreateSlope` | src/caffe/ristretto/layers/prelu_ristretto_layer.cpp:51-73 | Exactly one fresh slope, with newly allocated storage, the configured shape and filling. |
| `PReLURistretto.PReLURistrettoLayer.ResetMultiplier` | src/caffe/ristretto/layers/prelu_ristretto_layer.cpp:85-87 | The multiplier has shape [n] and every value 1. |
| `PReLURistretto.PReLURistrettoLayer.AllocateShadow` | src/caffe/ristretto/layers/prelu_ristretto_layer.cpp:89-97 | One fresh shadow blob, with newly allocated storage, of the configured slope shape and of the slope's size. |
| `PReLURistretto.PReLURistrettoLayer.Reshape` | src/caffe/ristretto/layers/prelu_ristretto_layer.cpp:100-110 | Fails below two axes. It also fails, changing nothing, when the slope count does not match this input's channel count; this check is the correction recorded under Findings. Otherwise the output takes the input's shape. Only in place is the snapshot buffer sized like the input; otherwise it and the input are untouched. The output's and the snapshot buffer's storage is kept when its size does not change. |
| `PReLURistretto.PReLURistrettoLayer.Forward` | src/caffe/ristretto/layers/prelu_ristretto_layer.cpp:115-147 | The shadow holds the quantized slope, rounded as `ForwardRounding` says. The output is `ForwardOutput` of the input as it was on entry under the shadow. In place the snapshot holds the old input. The full-precision slope is unchanged. |
| `PReLURistretto.PReLURistrettoLayer.Backward` | src/caffe/ristretto/layers/prelu_ristretto_layer.cpp:149-192 | Reads the input from the snapshot when in place. The slope gradient is accumulated when its flag is set, and is otherwise unchanged. The input gradient is `BottomDiff` of the incoming gradient as it was on entry under the shadow when asked for, and is otherwise unchanged. |
| `PReLURistretto.ForwardBackward` | src/caffe/ristretto/layers/prelu_ristretto_layer.cpp:100-192 | On an output already sized like the input, a reshape, forward and backward step does four things, whether or not it runs in place. The output is `ForwardOutput` of the input as it was before the step. In place, the snapshot holds that input. The slope gradient, when its flag is set, is `SlopeDiffAccumulated` of that input and of the incoming gradient as it was before the step; it is unchanged otherwise. The input gradient is `BottomDiff` of the same. |
| `PReLURistretto.InPlaceParity` | src/caffe/ristretto/layers/prelu_ristretto_layer.cpp:162-174 | A step run in place gives the same input gradient as a step run on two distinct blobs holding the same input and incoming gradient, given the same quantizer outcome (the same quantized slope). |
| `PReLURules.IndexPastSetUpSlopes` | src/caffe/ristretto/layers/prelu_ristretto_layer.cpp:100-110 | With per-channel slopes set up for `k` channels, an input reshaped to `k + 1` channels gets a slope index equal to `k`, one past the last slope. |
| `PReLURistretto.CreateAndSetUp` | src/caffe/ristretto/layers/prelu_ristretto_layer.cpp:9-98 | A new layer with no stored parameters always passes setup. It ends up ready, its slope filled as configured, and its storage shared with no blob of the caller. |
| `PReLURistretto.CreateAndStep` | src/caffe/ristretto/layers/prelu_ristretto_layer.cpp:9-192 | Whoever creates a layer can set it up and run one step on it, in place or on an output already sized like the input. The step leaves the output as `ForwardOutput` of the input as it was before, under the quantized new slope. It leaves the input gradient as `BottomDiff` of that input and of the incoming gradient as it was before. |

## Left out

- The quantizer (`QuantizeWeights_cpu` of the base layer) is a function parameter. Fixed-point, minifloat and power-of-two rounding are not modelled. Stochastic rounding's randomness is modelled by letting the caller pass a different function on each call.
- Floating-point arithmetic: values are exact reals, so rounding error in the loops is not modelled.
- Fillers other than the constant filler. A configured non-constant filler leaves the slope values unspecified, because the filler library is not part of this model.
- `LOG(INFO)` messages and the text of `CHECK` messages. A failed `CHECK` becomes a `Fail` outcome.
- PReLURistretto.PReLURistrettoLayer.constructor: requires a known precision mode instead of modelling the process abort that `LOG(FATAL)` causes. `Configure` itself returns the error.
- PReLURistretto.PReLURistrettoLayer.LayerSetUp: the layer's `channels()` is taken as the size of axis 1. The check in `Blob::channels()` that a blob has at most four axes is not modelled, because `Blob` is not part of this model.
- PReLURistretto.PReLURistrettoLayer.Forward: also reads `channels()` as the size of axis 1, without the four-axis check.
- PReLURistretto.PReLURistrettoLayer.Backward: also reads `channels()` as the size of axis 1, without the four-axis check.
- PReLURistretto.PReLURistrettoLayer.ResetMultiplier: allocates a new multiplier blob instead of reshaping the existing one. The resulting shape and values are the same. The multiplier is not shared with anyone, so its identity is not observable.
- `backward_buff_` is only reshaped in setup and never read on the CPU path, so it is left out.
- A default-constructed `Blob` is modelled as holding no elements (shape [0]). The capacity-keeping behaviour of `Blob::Reshape` is simplified to: storage is kept when the element count is unchanged and replaced otherwise.
- The GPU path, layer registration and the Hardtanh layer header are left out.
- Setting `param_propagate_down` from the network is left out. `Backward` states its result for either value of the flag.
- PReLURistretto.PReLURistrettoLayer.Forward: requires that the output was reshaped to the input's size, that the slope matches the channel count, and, in place, that the snapshot buffer has the input's size. Reshape establishes the sizes. Setup and the model's reshape establish the slope count, but the source's reshape does not check the slope count again (see Findings).
- PReLURistretto.PReLURistrettoLayer.Reshape: includes the slope-count check the source leaves out, so an input whose channel count differs from setup fails here instead of being indexed past the slope; the unchecked behaviour is stated by `IndexPastSetUpSlopes` (see Findings).
- PReLURistretto.PReLURistrettoLayer.Backward: requires the same sizes as `Forward`, including the snapshot buffer's size in place.
- PReLURistretto.InPlaceParity: compares two steps that receive the same quantizer. In the train phase the source always rounds stochastically, so two real steps may quantize the slope differently; the parity holds for equal quantized slopes.

## Findings

| source | as written | input that shows it | evidently intended | confidence | as-written member | corrected member |
|---|---|---|---|---|---|---|
| src/caffe/ristretto/layers/prelu_ristretto_layer.cpp:100-110 | The slope count is checked against the channel count only in setup (lines 74-81). Reshape accepts an input with any channel count, and forward and backward then index the slope by the current channel count (lines 143, 178, 186). | A per-channel layer set up on 1 x 3 x 1 x 1 input, then reshaped to 1 x 4 x 1 x 1. Element 3 gets slope index 3 and reads `slope_data[3]` past the 3-element slope (lines 145, 188). Backward writes `slope_diff[3]` (line 179). With fewer channels than at setup, the layer runs silently on the first slopes only. | Reshape rejects an input whose channel count does not match the slope, as setup does. | medium, not executed | `PReLURules.IndexPastSetUpSlopes` | `PReLURistretto.PReLURistrettoLayer.Reshape` |
