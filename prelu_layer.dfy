/** The quantized parametric-ReLU layer: its construction from the layer
    configuration, its setup, reshape, forward and backward passes, as
    methods of a class whose fields are the layer's member variables.

    The layer keeps the learnable slope at full precision (`blobs[0]`) and,
    on every forward pass, recomputes a quantized copy of it (the shadow,
    `weightsQuantized[0]`); outputs and input gradients use only the shadow,
    while the slope gradient flows into the full-precision blob. When input
    and output are the same blob (in-place computation) the input is
    snapshot into `bottomMemory` before it is overwritten. */
module PReLURistretto {
  import opened Blobs
  import opened Quantization
  import opened PReLURules

  datatype Option<T> = None | Some(value: T)

  /** How the slope is filled when the layer creates it. Only the constant
      filler is modelled; any other filler is external and the values it
      produces are left unspecified. */
  datatype FillerParameter = ConstantFiller(value: real) | OtherFiller(kind: string)

  datatype PReLUParameter = PReLUParameter(channelShared: bool, filler: Option<FillerParameter>)

  /** The parts of a layer's configuration this layer reads. */
  datatype LayerParameter = LayerParameter(
    phase: Phase,
    quantization: QuantizationParameter,
    prelu: PReLUParameter)

  datatype LayerError =
    | RankBelowTwo(rank: nat)
    | SlopeSizeMismatch(count: nat, expected: nat)

  datatype Outcome = Pass | Fail(error: LayerError)

  /** The slope value used when no filler is configured. */
  const DefaultSlope: real := 0.25

  /** The quantizer of the base layer: given the settings, a rounding scheme
      and the values of the weights, the quantized values. It works element
      for element in place, so it keeps the number of values. */
  type Quantizer = (QuantSettings, Rounding, seq<real>) -> seq<real>

  ghost predicate SizePreserving(quantize: Quantizer)
  {
    forall s, r, v :: |quantize(s, r, v)| == |v|
  }

  /** The shape of the slope blob: a scalar when the slope is shared, one
      value per channel otherwise. */
  function SlopeShape(shared: bool, channels: nat): (s: seq<nat>)
    ensures Count(s) == SlopeCount(shared, channels)
  {
    if shared then [] else [channels]
  }

  /** `v` after `std::vector::resize(n, fill)`: the first entries are kept,
      entries past the old end take the value `fill`. */
  function Resized(v: seq<bool>, n: nat, fill: bool): (r: seq<bool>)
    ensures |r| == n
    ensures forall i :: 0 <= i < n ==> r[i] == (if i < |v| then v[i] else fill)
  {
    if n <= |v| then v[..n] else v + seq(n - |v|, _ => fill)
  }

  /** Two blobs are different objects and share no storage. */
  ghost predicate Separate(b1: Blob, b2: Blob)
    reads b1, b2
  {
    b1 != b2 && b1.data != b2.data && b1.data != b2.diff && b1.diff != b2.data && b1.diff != b2.diff
  }

  /** Copies the first `n` values of `src` into `dst`. */
  method Copy(src: array<real>, dst: array<real>, n: nat)
    requires n <= src.Length && n <= dst.Length && src != dst
    modifies dst
    ensures dst[..n] == src[..n] && dst[n..] == old(dst[n..])
  {
    forall k | 0 <= k < n {
      dst[k] := src[k];
    }
  }

  /** Sets every value of `a` to `v`. */
  method SetAll(a: array<real>, v: real)
    modifies a
    ensures forall k :: 0 <= k < a.Length ==> a[k] == v
  {
    forall k | 0 <= k < a.Length {
      a[k] := v;
    }
  }

  /** A new slope blob of the given shape, filled by the configured filler,
      or with the default slope when none is configured. */
  method NewSlope(shared: bool, channels: nat, filler: Option<FillerParameter>) returns (b: Blob)
    ensures b.Valid() && fresh(b) && fresh(b.data) && fresh(b.diff)
    ensures b.shape == SlopeShape(shared, channels)
    ensures filler.None? ==> forall k :: 0 <= k < b.data.Length ==> b.data[k] == DefaultSlope
    ensures filler.Some? && filler.value.ConstantFiller? ==>
      forall k :: 0 <= k < b.data.Length ==> b.data[k] == filler.value.value
  {
    b := new Blob(SlopeShape(shared, channels));
    var f := if filler.Some? then filler.value else ConstantFiller(DefaultSlope);
    if f.ConstantFiller? {
      SetAll(b.data, f.value);
    }
  }

  /** The quantizer applied in place to an array of weights. */
  method QuantizeInPlace(w: array<real>, settings: QuantSettings, rounding: Rounding, quantize: Quantizer)
    requires SizePreserving(quantize)
    modifies w
    ensures w[..] == quantize(settings, rounding, old(w[..]))
  {
    var quantized := quantize(settings, rounding, w[..]);
    assert |quantized| == w.Length;
    forall k | 0 <= k < w.Length {
      w[k] := quantized[k];
    }
    assert w[..] == quantized;
  }

  /** The forward loop: element `i` of the output gets the rule applied to
      element `i` of the input with the slope of its channel. Output and
      input may be the same array (in place); each element is read before
      it is written. */
  method ApplyPReLU(top: array<real>, x: array<real>, slope: array<real>,
                    count: nat, dim: nat, channels: nat, shared: bool)
    requires x.Length == count && top.Length == count
    requires count > 0 ==> dim > 0 && channels > 0
    requires slope.Length == SlopeCount(shared, channels)
    requires top != slope
    modifies top
    ensures top[..] == ForwardOutput(old(x[..]), slope[..], dim, channels, shared)
  {
    ghost var x0 := x[..];
    var i := 0;
    while i < count
      invariant 0 <= i <= count
      invariant forall k :: 0 <= k < i ==> top[k] == PReLU(x0[k], slope[ChannelIndex(k, dim, channels, shared)])
      invariant forall k :: i <= k < count ==> x[k] == x0[k]
    {
      var c := ChannelIndex(i, dim, channels, shared);
      top[i] := PReLU(x[i], slope[c]);
      i := i + 1;
    }
  }

  /** `d` holds, for every slope, its starting gradient in `d0` plus what
      the first `n` elements contribute to it. */
  ghost predicate Gathered(d: seq<real>, d0: seq<real>, x: seq<real>, g: seq<real>,
                           n: nat, dim: nat, channels: nat, shared: bool)
    requires n > 0 ==> dim > 0 && channels > 0
    requires n <= |x| && n <= |g|
  {
    |d| == |d0| &&
    forall c :: 0 <= c < |d| ==> d[c] == d0[c] + SlopeGradSum(x, g, n, c, dim, channels, shared)
  }

  /** Adding the term of element `n` to the gradient of its own slope
      extends the gathered gradients by that element. */
  lemma GatheredStep(d: seq<real>, d0: seq<real>, x: seq<real>, g: seq<real>,
                     n: nat, dim: nat, channels: nat, shared: bool)
    requires dim > 0 && channels > 0
    requires n < |x| && n < |g|
    requires Gathered(d, d0, x, g, n, dim, channels, shared)
    requires ChannelIndex(n, dim, channels, shared) < |d|
    ensures var c := ChannelIndex(n, dim, channels, shared);
      Gathered(d[c := d[c] + SlopeGradTerm(x[n], g[n])], d0, x, g, n + 1, dim, channels, shared)
  {
  }

  /** The slope-gradient loop: element `i` adds g[i] * x[i] * [x[i] <= 0]
      to the gradient of its slope. */
  method AccumulateSlopeGrad(slopeDiff: array<real>, x: array<real>, g: array<real>,
                             count: nat, dim: nat, channels: nat, shared: bool)
    requires x.Length == count && g.Length == count
    requires count > 0 ==> dim > 0 && channels > 0
    requires slopeDiff.Length == SlopeCount(shared, channels)
    requires slopeDiff != x && slopeDiff != g
    modifies slopeDiff
    ensures slopeDiff[..] == SlopeDiffAccumulated(old(slopeDiff[..]), x[..], g[..], dim, channels, shared)
  {
    ghost var d0, xs, gs := slopeDiff[..], x[..], g[..];
    var i := 0;
    while i < count
      invariant 0 <= i <= count
      invariant Gathered(slopeDiff[..], d0, xs, gs, i, dim, channels, shared)
    {
      var c := ChannelIndex(i, dim, channels, shared);
      ghost var before := slopeDiff[..];
      GatheredStep(before, d0, xs, gs, i, dim, channels, shared);
      slopeDiff[c] := slopeDiff[c] + SlopeGradTerm(x[i], g[i]);
      assert slopeDiff[..] == before[c := before[c] + SlopeGradTerm(xs[i], gs[i])];
      i := i + 1;
    }
    assert slopeDiff[..] == SlopeDiffAccumulated(d0, xs, gs, dim, channels, shared);
  }

  /** The input-gradient loop: element `i` gets g[i] * ([x[i] > 0] +
      slope[c] * [x[i] <= 0]). The incoming gradient `g` may be the very
      array written (in place); each element is read before it is written. */
  method PropagateToBottom(bottomDiff: array<real>, x: array<real>, g: array<real>, slope: array<real>,
                           count: nat, dim: nat, channels: nat, shared: bool)
    requires x.Length == count && g.Length == count && bottomDiff.Length == count
    requires count > 0 ==> dim > 0 && channels > 0
    requires slope.Length == SlopeCount(shared, channels)
    requires bottomDiff != x && bottomDiff != slope
    modifies bottomDiff
    ensures bottomDiff[..] == BottomDiff(x[..], old(g[..]), slope[..], dim, channels, shared)
  {
    ghost var g0 := g[..];
    var i := 0;
    while i < count
      invariant 0 <= i <= count
      invariant forall k :: 0 <= k < i ==>
        bottomDiff[k] == PReLUGrad(x[k], slope[ChannelIndex(k, dim, channels, shared)], g0[k])
      invariant forall k :: i <= k < count ==> g[k] == g0[k]
    {
      var c := ChannelIndex(i, dim, channels, shared);
      bottomDiff[i] := PReLUGrad(x[i], slope[c], g[i]);
      i := i + 1;
    }
  }

  class PReLURistrettoLayer {
    const phase: Phase
    const prelu: PReLUParameter
    /** The quantization settings; fixed at construction. */
    const quant: QuantSettings

    var channelShared: bool
    /** The learnable parameters; after setup `blobs[0]` is the slope. */
    var blobs: seq<Blob>
    var paramPropagateDown: seq<bool>
    /** The quantized shadow of the slope. */
    var weightsQuantized: seq<Blob>
    var multiplier: Blob
    /** Snapshot of the input for in-place computation. */
    var bottomMemory: Blob

    /** The blobs the layer owns are well formed and share no storage. */
    ghost predicate Valid()
      reads this, blobs, weightsQuantized, multiplier, bottomMemory
    {
      multiplier.Valid() && bottomMemory.Valid() && Separate(multiplier, bottomMemory) &&
      (|blobs| > 0 ==>
        blobs[0].Valid() && Separate(blobs[0], multiplier) && Separate(blobs[0], bottomMemory)) &&
      (|weightsQuantized| > 0 ==>
        weightsQuantized[0].Valid() &&
        Separate(weightsQuantized[0], multiplier) && Separate(weightsQuantized[0], bottomMemory) &&
        (|blobs| > 0 ==> Separate(weightsQuantized[0], blobs[0])))
    }

    /** The layer has been set up: there is a slope, a shadow of the same
        size and a propagation flag for the slope. */
    ghost predicate Ready()
      reads this, blobs, weightsQuantized, multiplier, bottomMemory
    {
      Valid() && |blobs| > 0 && |weightsQuantized| > 0 && |paramPropagateDown| > 0 &&
      weightsQuantized[0].data.Length == blobs[0].data.Length
    }

    /** A blob passed in from outside (an input or output of the layer)
        shares no storage with the layer's own blobs. */
    ghost predicate External(b: Blob)
      reads this, blobs, weightsQuantized, multiplier, bottomMemory, b
    {
      b.Valid() && Separate(b, multiplier) && Separate(b, bottomMemory) &&
      (|blobs| > 0 ==> Separate(b, blobs[0])) &&
      (|weightsQuantized| > 0 ==> Separate(b, weightsQuantized[0]))
    }

    /** The blobs given as input and output are either the same blob or
        share no storage. */
    ghost predicate Wired(bottom: Blob, top: Blob)
      reads this, blobs, weightsQuantized, multiplier, bottomMemory, bottom, top
    {
      External(bottom) && External(top) && (bottom != top ==> Separate(bottom, top))
    }

    /** Construction: the phase and the layer configuration are recorded and
        the quantization settings are taken over for the configured precision
        mode (see Configure). `loaded` are the parameters the layer already
        holds (for instance from a stored model); `inherited` the settings as
        the base layer's constructor leaves them. An unknown precision mode is
        fatal, so the caller must not pass one. */
    constructor (param: LayerParameter, inherited: QuantSettings, loaded: seq<Blob>)
      requires !param.quantization.precision.OtherPrecision?
      requires |loaded| > 0 ==> loaded[0].Valid()
      ensures Valid()
      ensures Configure(inherited, param.quantization) == Success(quant)
      ensures phase == param.phase && prelu == param.prelu
      ensures blobs == loaded && weightsQuantized == [] && paramPropagateDown == []
      // the multiplier and the snapshot buffer are the layer's own blobs
      ensures fresh(multiplier) && fresh(multiplier.data) && fresh(multiplier.diff)
      ensures fresh(bottomMemory) && fresh(bottomMemory.data) && fresh(bottomMemory.diff)
    {
      phase := param.phase;
      prelu := param.prelu;
      quant := Configure(inherited, param.quantization).value;
      blobs := loaded;
      paramPropagateDown := [];
      weightsQuantized := [];
      multiplier := new Blob.Empty();
      bottomMemory := new Blob.Empty();
    }

    /** Setup for an input blob. Checks that the input has at least two axes,
        creates and fills the slope unless the layer already holds
        parameters, checks the slope's size against the configuration,
        marks the slope for gradient propagation, and allocates the
        multiplier (all ones, one per element of a sample) and the shadow. */
    method LayerSetUp(bottom: Blob) returns (r: Outcome)
      requires Valid()
      modifies this
      ensures Valid() && bottomMemory == old(bottomMemory)
      ensures |bottom.shape| < 2 ==> r == Fail(RankBelowTwo(|bottom.shape|)) && unchanged(this)
      ensures |bottom.shape| >= 2 ==> channelShared == prelu.channelShared && |blobs| > 0
      // parameters already held are left as they are
      ensures |bottom.shape| >= 2 && |old(blobs)| > 0 ==> blobs == old(blobs)
      // otherwise exactly one slope is created with the configured shape and filling
      ensures |bottom.shape| >= 2 && |old(blobs)| == 0 ==>
        |blobs| == 1 && fresh(blobs[0]) && fresh(blobs[0].data) && fresh(blobs[0].diff) &&
        blobs[0].shape == SlopeShape(prelu.channelShared, bottom.shape[1]) &&
        (prelu.filler.None? ==> forall k :: 0 <= k < blobs[0].data.Length ==> blobs[0].data[k] == DefaultSlope) &&
        (prelu.filler.Some? && prelu.filler.value.ConstantFiller? ==>
          forall k :: 0 <= k < blobs[0].data.Length ==> blobs[0].data[k] == prelu.filler.value.value)
      // the slope's size must match the configuration
      ensures |bottom.shape| >= 2 ==>
        var expected := SlopeCount(prelu.channelShared, bottom.shape[1]);
        r == if Count(blobs[0].shape) == expected then Pass else Fail(SlopeSizeMismatch(Count(blobs[0].shape), expected))
      ensures r.Pass? ==> |bottom.shape| >= 2 && Ready()
      ensures r.Pass? ==> paramPropagateDown == Resized(old(paramPropagateDown), |blobs|, true)
      ensures r.Pass? && old(paramPropagateDown) == [] ==>
        forall i :: 0 <= i < |paramPropagateDown| ==> paramPropagateDown[i]
      ensures r.Pass? ==>
        fresh(multiplier) && fresh(multiplier.data) && fresh(multiplier.diff) &&
        multiplier.shape == [CountFrom(bottom.shape, 1)] &&
        forall k :: 0 <= k < multiplier.data.Length ==> multiplier.data[k] == 1.0
      ensures r.Pass? ==>
        |weightsQuantized| == 1 && fresh(weightsQuantized[0]) &&
        fresh(weightsQuantized[0].data) && fresh(weightsQuantized[0].diff) &&
        weightsQuantized[0].shape == SlopeShape(channelShared, bottom.shape[1])
    {
      if |bottom.shape| < 2 {
        return Fail(RankBelowTwo(|bottom.shape|));
      }
      var channels := bottom.shape[1];
      channelShared := prelu.channelShared;
      if |blobs| == 0 {
        CreateSlope(channels);
      }
      var expected := SlopeCount(channelShared, channels);
      if Count(blobs[0].shape) != expected {
        return Fail(SlopeSizeMismatch(Count(blobs[0].shape), expected));
      }
      paramPropagateDown := Resized(paramPropagateDown, |blobs|, true);
      ResetMultiplier(CountFrom(bottom.shape, 1));
      AllocateShadow(channels);
      r := Pass;
    }

    /** Creates the slope blob when the layer holds no parameters yet. */
    method CreateSlope(channels: nat)
      requires Valid() && |blobs| == 0
      modifies this`blobs
      ensures Valid()
      ensures |blobs| == 1 && fresh(blobs[0]) && fresh(blobs[0].data) && fresh(blobs[0].diff)
      ensures blobs[0].shape == SlopeShape(channelShared, channels)
      ensures prelu.filler.None? ==> forall k :: 0 <= k < blobs[0].data.Length ==> blobs[0].data[k] == DefaultSlope
      ensures prelu.filler.Some? && prelu.filler.value.ConstantFiller? ==>
        forall k :: 0 <= k < blobs[0].data.Length ==> blobs[0].data[k] == prelu.filler.value.value
    {
      var slope := NewSlope(channelShared, channels, prelu.filler);
      blobs := [slope];
    }

    /** Sizes the multiplier to `n` elements, all ones. */
    method ResetMultiplier(n: nat)
      requires Valid()
      modifies this`multiplier
      ensures Valid()
      ensures fresh(multiplier) && fresh(multiplier.data) && fresh(multiplier.diff) && multiplier.shape == [n]
      ensures forall k :: 0 <= k < multiplier.data.Length ==> multiplier.data[k] == 1.0
    {
      var m := new Blob([n]);
      SetAll(m.data, 1.0);
      multiplier := m;
    }

    /** Allocates the quantized shadow with the slope's shape. */
    method AllocateShadow(channels: nat)
      requires Valid() && |blobs| > 0
      requires blobs[0].data.Length == SlopeCount(channelShared, channels)
      modifies this`weightsQuantized
      ensures Valid()
      ensures |weightsQuantized| == 1 && fresh(weightsQuantized[0])
      ensures fresh(weightsQuantized[0].data) && fresh(weightsQuantized[0].diff)
      ensures weightsQuantized[0].shape == SlopeShape(channelShared, channels)
      ensures weightsQuantized[0].data.Length == blobs[0].data.Length
    {
      var shadow := new Blob(SlopeShape(channelShared, channels));
      weightsQuantized := [shadow];
    }

    /** Reshape: the output takes the input's shape, and for in-place
        computation the snapshot buffer is sized like the input. The slope
        is checked against the channel count of this input, as setup checks
        it against the input it sees; without that check an input with
        more channels than at setup would index past the slope. */
    method Reshape(bottom: Blob, top: Blob) returns (r: Outcome)
      requires Valid() && Wired(bottom, top)
      modifies top, bottomMemory
      ensures Valid() && Wired(bottom, top)
      ensures |old(bottom.shape)| < 2 ==> r == Fail(RankBelowTwo(|old(bottom.shape)|)) && unchanged(top, bottomMemory)
      ensures |old(bottom.shape)| >= 2 && |blobs| > 0 ==>
        var expected := SlopeCount(channelShared, old(bottom.shape)[1]);
        blobs[0].data.Length != expected ==>
          r == Fail(SlopeSizeMismatch(blobs[0].data.Length, expected)) && unchanged(top, bottomMemory)
      ensures r.Pass? <==>
        (|old(bottom.shape)| >= 2 &&
         (|blobs| > 0 ==> blobs[0].data.Length == SlopeCount(channelShared, old(bottom.shape)[1])))
      ensures r.Pass? ==> bottom.shape == old(bottom.shape) && top.shape == bottom.shape
      ensures r.Pass? && bottom == top ==> bottomMemory.shape == bottom.shape
      ensures bottom != top ==> unchanged(bottomMemory) && unchanged(bottom)
      // storage of a blob whose size does not change is kept, otherwise it is new
      ensures old(top.data.Length) == Count(old(bottom.shape)) ==> top.data == old(top.data) && top.diff == old(top.diff)
      ensures old(bottomMemory.data.Length) == Count(old(bottom.shape)) ==>
        bottomMemory.data == old(bottomMemory.data) && bottomMemory.diff == old(bottomMemory.diff)
      ensures (top.data == old(top.data) && top.diff == old(top.diff)) || (fresh(top.data) && fresh(top.diff))
      ensures (bottomMemory.data == old(bottomMemory.data) && bottomMemory.diff == old(bottomMemory.diff)) ||
              (fresh(bottomMemory.data) && fresh(bottomMemory.diff))
    {
      if |bottom.shape| < 2 {
        return Fail(RankBelowTwo(|bottom.shape|));
      }
      if |blobs| > 0 {
        var expected := SlopeCount(channelShared, bottom.shape[1]);
        if blobs[0].data.Length != expected {
          return Fail(SlopeSizeMismatch(blobs[0].data.Length, expected));
        }
      }
      top.Reshape(bottom.shape);
      if bottom == top {
        bottomMemory.Reshape(bottom.shape);
      }
      r := Pass;
    }

    /** Forward pass. The slope is copied into the shadow and quantized with
        the rounding scheme of the current phase; every output is the input
        through the rule with the quantized slope of its channel. In place,
        the input is first saved in the snapshot buffer. The full-precision
        slope is not changed. */
    method Forward(bottom: Blob, top: Blob, quantize: Quantizer)
      requires Ready() && Wired(bottom, top)
      requires |bottom.shape| >= 2 && top.data.Length == bottom.data.Length
      requires blobs[0].data.Length == SlopeCount(channelShared, bottom.shape[1])
      requires bottom == top ==> bottomMemory.data.Length == bottom.data.Length
      requires SizePreserving(quantize)
      modifies top.data, bottomMemory.data, weightsQuantized[0].data
      ensures weightsQuantized[0].data[..] == quantize(quant, ForwardRounding(phase, quant.rounding), blobs[0].data[..])
      ensures top.data[..] ==
        ForwardOutput(old(bottom.data[..]), weightsQuantized[0].data[..], InnerDim(bottom.shape), bottom.shape[1], channelShared)
      ensures bottom == top ==> bottomMemory.data[..] == old(bottom.data[..])
      ensures bottom != top ==> bottomMemory.data[..] == old(bottomMemory.data[..])
      ensures blobs[0].data[..] == old(blobs[0].data[..])
    {
      var x, y, mem := bottom.data, top.data, bottomMemory.data;
      var slope, shadow := blobs[0].data, weightsQuantized[0].data;
      assert x != mem && slope != shadow && y != shadow && x != shadow && y != slope && x != slope;
      assert y != mem && shadow != mem && slope != mem;
      var count := x.Length;
      var dim := InnerDim(bottom.shape);
      var channels := bottom.shape[1];
      if bottom == top {
        Copy(x, mem, count);
        assert mem[..] == x[..];
      }
      var rounding := ForwardRounding(phase, quant.rounding);
      Copy(slope, shadow, slope.Length);
      assert shadow[..] == slope[..];
      QuantizeInPlace(shadow, quant, rounding, quantize);
      ApplyPReLU(y, x, shadow, count, dim, channels, channelShared);
    }

    /** Backward pass. The input values are read from the snapshot buffer
        when computing in place. First, if the slope takes part in training,
        every element adds its term to the gradient of its slope; then, if
        the input gradient is wanted, it is written from the incoming
        gradient and the quantized slope. Both read the incoming gradient as
        it was on entry, even in place, where the input gradient overwrites
        it. */
    method Backward(top: Blob, propagateDown: seq<bool>, bottom: Blob)
      requires Ready() && Wired(bottom, top)
      requires |propagateDown| > 0
      requires |bottom.shape| >= 2 && top.diff.Length == bottom.data.Length
      requires blobs[0].data.Length == SlopeCount(channelShared, bottom.shape[1])
      requires bottom == top ==> bottomMemory.data.Length == bottom.data.Length
      modifies blobs[0].diff, bottom.diff
      ensures var x := if top == bottom then old(bottomMemory.data[..]) else old(bottom.data[..]);
        blobs[0].diff[..] ==
          if paramPropagateDown[0] then
            SlopeDiffAccumulated(old(blobs[0].diff[..]), x, old(top.diff[..]), InnerDim(bottom.shape), bottom.shape[1], channelShared)
          else old(blobs[0].diff[..])
      ensures var x := if top == bottom then old(bottomMemory.data[..]) else old(bottom.data[..]);
        bottom.diff[..] ==
          if propagateDown[0] then
            BottomDiff(x, old(top.diff[..]), weightsQuantized[0].data[..], InnerDim(bottom.shape), bottom.shape[1], channelShared)
          else old(bottom.diff[..])
    {
      var count := bottom.data.Length;
      var dim := InnerDim(bottom.shape);
      var channels := bottom.shape[1];
      var bottomData := bottom.data;
      if top == bottom {
        bottomData := bottomMemory.data;
      }
      var slope := weightsQuantized[0].data;
      // The slope gradient is gathered first: in place, writing the input
      // gradient overwrites the incoming gradient.
      if paramPropagateDown[0] {
        AccumulateSlopeGrad(blobs[0].diff, bottomData, top.diff, count, dim, channels, channelShared);
      }
      if propagateDown[0] {
        PropagateToBottom(bottom.diff, bottomData, top.diff, slope, count, dim, channels, channelShared);
      }
    }
  }

  /** One training step of the layer on an input and an output blob that are
      either the same blob (in place) or share no storage: reshape, forward,
      then backward with the input gradient wanted. Whether or not the step
      runs in place, the input gradient it leaves is that of the input as it
      was before the step, under the incoming gradient as it was before the
      step and the quantized slope. */
  method ForwardBackward(layer: PReLURistrettoLayer, bottom: Blob, top: Blob,
                         quantize: Quantizer, propagateDown: seq<bool>)
    requires layer.Ready() && layer.Wired(bottom, top)
    requires |bottom.shape| >= 2 && top.data.Length == bottom.data.Length
    requires layer.blobs[0].data.Length == SlopeCount(layer.channelShared, bottom.shape[1])
    requires SizePreserving(quantize) && |propagateDown| > 0 && propagateDown[0]
    modifies top, layer.bottomMemory, top.data, bottom.diff,
      layer.bottomMemory.data, layer.blobs[0].diff, layer.weightsQuantized[0].data
    ensures layer.Ready() && layer.Wired(bottom, top) && bottom.shape == old(bottom.shape) && top.shape == bottom.shape
    ensures top.data == old(top.data) && top.diff == old(top.diff)
    ensures (layer.bottomMemory.data == old(layer.bottomMemory.data) && layer.bottomMemory.diff == old(layer.bottomMemory.diff)) ||
            (fresh(layer.bottomMemory.data) && fresh(layer.bottomMemory.diff))
    ensures layer.blobs[0].data[..] == old(layer.blobs[0].data[..])
    ensures layer.weightsQuantized[0].data[..] ==
      quantize(layer.quant, ForwardRounding(layer.phase, layer.quant.rounding), layer.blobs[0].data[..])
    ensures top.data[..] ==
      ForwardOutput(old(bottom.data[..]), layer.weightsQuantized[0].data[..],
                    InnerDim(bottom.shape), bottom.shape[1], layer.channelShared)
    ensures bottom == top ==> layer.bottomMemory.data[..] == old(bottom.data[..])
    // the slope gradient reads the input as it was before forward, even in place
    ensures layer.blobs[0].diff[..] ==
      if layer.paramPropagateDown[0] then
        SlopeDiffAccumulated(old(layer.blobs[0].diff[..]), old(bottom.data[..]), old(top.diff[..]),
                             InnerDim(bottom.shape), bottom.shape[1], layer.channelShared)
      else old(layer.blobs[0].diff[..])
    ensures bottom.diff[..] ==
      BottomDiff(old(bottom.data[..]), old(top.diff[..]), layer.weightsQuantized[0].data[..],
                 InnerDim(bottom.shape), bottom.shape[1], layer.channelShared)
  {
    var r := layer.Reshape(bottom, top);
    layer.Forward(bottom, top, quantize);
    layer.Backward(top, propagateDown, bottom);
  }

  /** In-place parity: the input gradient of a step run in place equals that
      of a step run on two distinct blobs holding the same input and the
      same incoming gradient. This is what the snapshot buffer is for:
      without it, backward would read the outputs that forward wrote over
      the input. */
  method InPlaceParity(layer: PReLURistrettoLayer, a: Blob, b: Blob, c: Blob,
                       quantize: Quantizer, propagateDown: seq<bool>)
    requires layer.Ready() && layer.Wired(a, a) && layer.Wired(b, c)
    requires Separate(a, b) && Separate(a, c)
    requires |a.shape| >= 2 && b.shape == a.shape && c.shape == a.shape
    requires layer.blobs[0].data.Length == SlopeCount(layer.channelShared, a.shape[1])
    requires a.data[..] == b.data[..] && a.diff[..] == c.diff[..]
    requires SizePreserving(quantize) && |propagateDown| > 0 && propagateDown[0]
    modifies a, c, layer.bottomMemory, a.data, a.diff, b.diff, c.data,
      layer.bottomMemory.data, layer.blobs[0].diff, layer.weightsQuantized[0].data
    ensures a.diff[..] == b.diff[..]
  {
    ghost var x, g := a.data[..], a.diff[..];
    ForwardBackward(layer, a, a, quantize, propagateDown);
    ghost var inPlace, slope := a.diff[..], layer.weightsQuantized[0].data[..];
    assert b.data[..] == x && c.diff[..] == g && b.shape == a.shape;
    assert layer.Wired(b, c);
    ForwardBackward(layer, b, c, quantize, propagateDown);
    assert layer.weightsQuantized[0].data[..] == slope;
    assert a.diff[..] == inPlace;
  }

  /** A new layer, with no stored parameters, set up for an input: setup
      succeeds, and the layer's blobs share no storage with the input or
      with another blob `top` that already exists. */
  method CreateAndSetUp(param: LayerParameter, inherited: QuantSettings, bottom: Blob, top: Blob)
    returns (layer: PReLURistrettoLayer, setup: Outcome)
    requires !param.quantization.precision.OtherPrecision?
    requires bottom.Valid() && top.Valid() && (bottom != top ==> Separate(bottom, top))
    requires |bottom.shape| >= 2
    ensures fresh(layer) && setup == Pass && layer.Ready() && layer.Wired(bottom, top)
    ensures fresh(layer.multiplier) && fresh(layer.multiplier.data) && fresh(layer.multiplier.diff)
    ensures fresh(layer.bottomMemory) && fresh(layer.bottomMemory.data) && fresh(layer.bottomMemory.diff)
    ensures fresh(layer.blobs[0]) && fresh(layer.blobs[0].data) && fresh(layer.blobs[0].diff)
    ensures fresh(layer.weightsQuantized[0]) && fresh(layer.weightsQuantized[0].data) && fresh(layer.weightsQuantized[0].diff)
    ensures layer.phase == param.phase && Configure(inherited, param.quantization) == Success(layer.quant)
    ensures layer.channelShared == param.prelu.channelShared && |layer.blobs| == 1
    ensures layer.blobs[0].data.Length == SlopeCount(layer.channelShared, bottom.shape[1])
    ensures param.prelu.filler.None? ==>
      forall k :: 0 <= k < layer.blobs[0].data.Length ==> layer.blobs[0].data[k] == DefaultSlope
    ensures param.prelu.filler.Some? && param.prelu.filler.value.ConstantFiller? ==>
      forall k :: 0 <= k < layer.blobs[0].data.Length ==> layer.blobs[0].data[k] == param.prelu.filler.value.value
  {
    layer := new PReLURistrettoLayer(param, inherited, []);
    setup := layer.LayerSetUp(bottom);
  }

  /** The whole life of a layer on one input: construction with no stored
      parameters, setup, then one step of reshape, forward and backward,
      on an output that is either the input itself or a separate blob of
      the same size. The step leaves the input gradient of the input as it
      was before, under the incoming gradient as it was before and the
      freshly created slope, quantized. */
  method CreateAndStep(param: LayerParameter, inherited: QuantSettings, bottom: Blob, top: Blob, quantize: Quantizer)
    returns (layer: PReLURistrettoLayer)
    requires !param.quantization.precision.OtherPrecision?
    requires bottom.Valid() && top.Valid() && (bottom != top ==> Separate(bottom, top))
    requires |bottom.shape| >= 2 && Count(top.shape) == Count(bottom.shape)
    requires SizePreserving(quantize)
    modifies top, top.data, bottom.diff
    ensures fresh(layer) && layer.Ready() && layer.channelShared == param.prelu.channelShared
    ensures top.shape == bottom.shape && bottom.shape == old(bottom.shape)
    ensures layer.weightsQuantized[0].data.Length == SlopeCount(layer.channelShared, bottom.shape[1])
    ensures layer.weightsQuantized[0].data[..] ==
      quantize(layer.quant, ForwardRounding(param.phase, layer.quant.rounding), layer.blobs[0].data[..])
    ensures top.data[..] ==
      ForwardOutput(old(bottom.data[..]), layer.weightsQuantized[0].data[..],
                    InnerDim(bottom.shape), bottom.shape[1], layer.channelShared)
    ensures bottom.diff[..] ==
      BottomDiff(old(bottom.data[..]), old(top.diff[..]), layer.weightsQuantized[0].data[..],
                 InnerDim(bottom.shape), bottom.shape[1], layer.channelShared)
  {
    var setup;
    layer, setup := CreateAndSetUp(param, inherited, bottom, top);
    ForwardBackward(layer, bottom, top, quantize, [true]);
  }
}
