/** The pure rules of the quantized parametric-ReLU layer: which slope an
    element uses, the per-element forward and backward formulas, and the
    whole-tensor results the layer's loops compute, stated as functions of
    the input, the (quantized) slope and the incoming gradient.

    Tensors are flattened in (num, channels, rest) order: element `i`
    lies in sample `i / (channels * dim)`, channel `(i / dim) % channels`,
    where `dim` is the element count of the axes after the channel axis.
    All indices are non-negative, so Dafny's division agrees with C++'s. */
module PReLURules {

  /** How many slopes the layer holds: one shared slope, or one per channel. */
  function SlopeCount(shared: bool, channels: nat): nat
  {
    if shared then 1 else channels
  }

  /** The slope index used by flat element `i`: the channel of `i`, divided
      by the broadcast factor (all channels when the slope is shared, 1
      otherwise). */
  function ChannelIndex(i: nat, dim: nat, channels: nat, shared: bool): (c: nat)
    requires dim > 0 && channels > 0
    ensures c < SlopeCount(shared, channels)
    ensures shared ==> c == 0
    ensures !shared ==> c == (i / dim) % channels
  {
    var divFactor := if shared then channels else 1;
    (i / dim) % channels / divFactor
  }

  /** Division with remainder is unique. */
  lemma DivModUnique(q: nat, r: nat, d: nat)
    requires r < d
    ensures (q * d + r) / d == q && (q * d + r) % d == r
  {
    var n := q * d + r;
    MulGap(n / d, q, d);
    MulGap(q, n / d, d);
  }

  /** A larger factor gives a product at least one `d` larger. */
  lemma MulGap(a: int, b: int, d: nat)
    ensures a < b ==> a * d + d <= b * d
  {
    if a < b {
      MulAtLeast(b - a, d);
      assert b * d == a * d + (b - a) * d;
    }
  }

  lemma {:induction false} MulAtLeast(k: nat, d: nat)
    requires k >= 1
    ensures k * d >= d
  {
    if k > 1 {
      MulAtLeast(k - 1, d);
      assert k * d == (k - 1) * d + d;
    }
  }

  /** Per-channel slopes: an element at coordinates (n, ch, s) of a tensor
      with `channels` channels and `dim` elements per channel uses the
      slope of channel `ch`. */
  lemma ChannelOfCoordinates(n: nat, ch: nat, s: nat, channels: nat, dim: nat)
    requires ch < channels && s < dim
    ensures ChannelIndex((n * channels + ch) * dim + s, dim, channels, false) == ch
  {
    DivModUnique(n * channels + ch, s, dim);
    DivModUnique(n, ch, channels);
  }

  /** The slope index is computed from the channel count of the current
      input. For per-channel slopes set up for `k` channels, an input
      reshaped to `k + 1` channels gives its first element of channel `k`
      the index `k`: one past the last slope. */
  lemma IndexPastSetUpSlopes(k: nat, dim: nat)
    requires k > 0 && dim > 0
    ensures ChannelIndex(k * dim, dim, k + 1, false) == k
    ensures ChannelIndex(k * dim, dim, k + 1, false) >= SlopeCount(false, k)
  {
    DivModUnique(k, 0, dim);
    DivModUnique(0, k, k + 1);
  }

  /** The forward rule for one element with slope `a`:
      max(x, 0) + a * min(x, 0). */
  function PReLU(x: real, a: real): (y: real)
    ensures x > 0.0 ==> y == x
    ensures x <= 0.0 ==> y == a * x
  {
    (if x > 0.0 then x else 0.0) + a * (if x < 0.0 then x else 0.0)
  }

  /** The gradient with respect to the input for one element, given the
      gradient `g` arriving from above:
      g * ([x > 0] + a * [x <= 0]). */
  function PReLUGrad(x: real, a: real, g: real): (d: real)
    ensures x > 0.0 ==> d == g
    ensures x <= 0.0 ==> d == g * a
  {
    g * ((if x > 0.0 then 1.0 else 0.0) + a * (if x <= 0.0 then 1.0 else 0.0))
  }

  /** The contribution of one element to the gradient of its slope:
      g * x * [x <= 0]. */
  function SlopeGradTerm(x: real, g: real): (t: real)
    ensures x > 0.0 ==> t == 0.0
    ensures x <= 0.0 ==> t == g * x
  {
    g * x * (if x <= 0.0 then 1.0 else 0.0)
  }

  /** The input gradient is the derivative of the forward rule: the output
      is the input scaled by the gradient of a unit signal, and the slope
      term is the derivative of the output in the slope. */
  lemma PReLUDerivatives(x: real, a: real, b: real)
    ensures PReLU(x, a) == PReLUGrad(x, a, 1.0) * x
    ensures PReLU(x, b) - PReLU(x, a) == (b - a) * SlopeGradTerm(x, 1.0)
  {
  }

  /** What the forward pass writes: every element through the rule with
      the slope of its channel. */
  function ForwardOutput(x: seq<real>, slope: seq<real>, dim: nat, channels: nat, shared: bool): (y: seq<real>)
    requires |x| > 0 ==> dim > 0 && channels > 0
    requires |slope| == SlopeCount(shared, channels)
  {
    seq(|x|, i requires 0 <= i < |x| => PReLU(x[i], slope[ChannelIndex(i, dim, channels, shared)]))
  }

  /** What the backward pass writes into the input gradient. */
  function BottomDiff(x: seq<real>, topDiff: seq<real>, slope: seq<real>, dim: nat, channels: nat, shared: bool): (d: seq<real>)
    requires |x| > 0 ==> dim > 0 && channels > 0
    requires |slope| == SlopeCount(shared, channels)
    requires |topDiff| == |x|
  {
    seq(|x|, i requires 0 <= i < |x| => PReLUGrad(x[i], slope[ChannelIndex(i, dim, channels, shared)], topDiff[i]))
  }

  /** With per-channel slopes, the output and the input gradient of the
      element at coordinates (n, ch, s) use the slope of channel `ch`. */
  lemma PerChannelSlopeUsed(x: seq<real>, topDiff: seq<real>, slope: seq<real>,
                            n: nat, ch: nat, s: nat, dim: nat, channels: nat)
    requires ch < channels && s < dim
    requires |slope| == channels && |topDiff| == |x|
    requires (n * channels + ch) * dim + s < |x|
    ensures var i := (n * channels + ch) * dim + s;
      ForwardOutput(x, slope, dim, channels, false)[i] == PReLU(x[i], slope[ch]) &&
      BottomDiff(x, topDiff, slope, dim, channels, false)[i] == PReLUGrad(x[i], slope[ch], topDiff[i])
  {
    ChannelOfCoordinates(n, ch, s, channels, dim);
  }

  /** With a shared slope every element uses the one slope. */
  lemma SharedSlopeUsed(x: seq<real>, topDiff: seq<real>, slope: seq<real>, dim: nat, channels: nat)
    requires |x| > 0 ==> dim > 0 && channels > 0
    requires |slope| == 1 && |topDiff| == |x|
    ensures forall i :: 0 <= i < |x| ==>
      ForwardOutput(x, slope, dim, channels, true)[i] == PReLU(x[i], slope[0]) &&
      BottomDiff(x, topDiff, slope, dim, channels, true)[i] == PReLUGrad(x[i], slope[0], topDiff[i])
  {
  }

  /** The gradient of slope `c` gathered from the first `n` elements: the
      sum of the terms of those elements whose slope index is `c`. */
  function SlopeGradSum(x: seq<real>, g: seq<real>, n: nat, c: nat, dim: nat, channels: nat, shared: bool): real
    requires n > 0 ==> dim > 0 && channels > 0
    requires n <= |x| && n <= |g|
  {
    if n == 0 then 0.0
    else
      SlopeGradSum(x, g, n - 1, c, dim, channels, shared)
      + (if ChannelIndex(n - 1, dim, channels, shared) == c then SlopeGradTerm(x[n - 1], g[n - 1]) else 0.0)
  }

  /** What the backward pass leaves in the slope gradient: the previous
      gradient of each slope plus what every element of that slope adds. */
  function SlopeDiffAccumulated(d0: seq<real>, x: seq<real>, g: seq<real>, dim: nat, channels: nat, shared: bool): (d: seq<real>)
    requires |x| > 0 ==> dim > 0 && channels > 0
    requires |g| == |x|
  {
    seq(|d0|, c requires 0 <= c < |d0| => d0[c] + SlopeGradSum(x, g, |x|, c, dim, channels, shared))
  }

  /** The sum of all slope-gradient terms of the first `n` elements. */
  function TotalSlopeGrad(x: seq<real>, g: seq<real>, n: nat): real
    requires n <= |x| && n <= |g|
  {
    if n == 0 then 0.0 else TotalSlopeGrad(x, g, n - 1) + SlopeGradTerm(x[n - 1], g[n - 1])
  }

  /** The slope gradients of slopes 0 .. m-1, added up. */
  function ChannelsTotal(x: seq<real>, g: seq<real>, n: nat, m: nat, dim: nat, channels: nat, shared: bool): real
    requires dim > 0 && channels > 0
    requires n <= |x| && n <= |g|
  {
    if m == 0 then 0.0
    else ChannelsTotal(x, g, n, m - 1, dim, channels, shared) + SlopeGradSum(x, g, n, m - 1, dim, channels, shared)
  }

  /** Adding element n-1 to the gathered gradients adds its term to the
      total of the first m slopes exactly when its slope index is below m. */
  lemma {:induction false} ChannelsTotalStep(x: seq<real>, g: seq<real>, n: nat, m: nat, dim: nat, channels: nat, shared: bool)
    requires dim > 0 && channels > 0
    requires 0 < n <= |x| && n <= |g|
    ensures ChannelsTotal(x, g, n, m, dim, channels, shared)
         == ChannelsTotal(x, g, n - 1, m, dim, channels, shared)
            + (if ChannelIndex(n - 1, dim, channels, shared) < m then SlopeGradTerm(x[n - 1], g[n - 1]) else 0.0)
  {
    if m > 0 {
      ChannelsTotalStep(x, g, n, m - 1, dim, channels, shared);
    }
  }

  /** Every element's term lands in exactly one slope: the slope gradients
      add up to the sum of all terms. */
  lemma {:induction false} SlopeGradConserved(x: seq<real>, g: seq<real>, n: nat, dim: nat, channels: nat, shared: bool)
    requires dim > 0 && channels > 0
    requires n <= |x| && n <= |g|
    ensures ChannelsTotal(x, g, n, SlopeCount(shared, channels), dim, channels, shared) == TotalSlopeGrad(x, g, n)
  {
    var m := SlopeCount(shared, channels);
    if n == 0 {
      ChannelsTotalZero(x, g, m, dim, channels, shared);
    } else {
      ChannelsTotalStep(x, g, n, m, dim, channels, shared);
      SlopeGradConserved(x, g, n - 1, dim, channels, shared);
    }
  }

  lemma {:induction false} ChannelsTotalZero(x: seq<real>, g: seq<real>, m: nat, dim: nat, channels: nat, shared: bool)
    requires dim > 0 && channels > 0
    ensures ChannelsTotal(x, g, 0, m, dim, channels, shared) == 0.0
  {
    if m > 0 {
      ChannelsTotalZero(x, g, m - 1, dim, channels, shared);
    }
  }

  /** With a shared slope every element contributes to the one slope, so
      its gradient is the sum of all terms. */
  lemma {:induction false} SharedSlopeGradIsTotal(x: seq<real>, g: seq<real>, n: nat, dim: nat, channels: nat)
    requires dim > 0 && channels > 0
    requires n <= |x| && n <= |g|
    ensures SlopeGradSum(x, g, n, 0, dim, channels, true) == TotalSlopeGrad(x, g, n)
  {
    if n > 0 {
      SharedSlopeGradIsTotal(x, g, n - 1, dim, channels);
    }
  }

  /** A slope gradient only sees its own elements: changing the input or
      the incoming gradient of an element that uses another slope does not
      change it. */
  lemma {:induction false} SlopeGradLocal(x: seq<real>, g: seq<real>, x': seq<real>, g': seq<real>, n: nat, c: nat, dim: nat, channels: nat, shared: bool)
    requires dim > 0 && channels > 0
    requires n <= |x| && n <= |g| && n <= |x'| && n <= |g'|
    requires forall i :: 0 <= i < n && ChannelIndex(i, dim, channels, shared) == c ==> x[i] == x'[i] && g[i] == g'[i]
    ensures SlopeGradSum(x, g, n, c, dim, channels, shared) == SlopeGradSum(x', g', n, c, dim, channels, shared)
  {
    if n > 0 {
      SlopeGradLocal(x, g, x', g', n - 1, c, dim, channels, shared);
    }
  }
}
