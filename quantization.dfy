/** The quantization settings a Ristretto layer carries, and how the
    parametric-ReLU layer's constructor fills them in from the layer's
    configuration. The numeric conversions themselves (fixed point,
    minifloat, powers of two) belong to the base Ristretto layer and are
    not part of this model. */
module Quantization {

  datatype Result<T, E> = Success(value: T) | Failure(error: E)

  /** The precision mode of the configuration. A value outside the three
      known modes is kept as its numeric code. */
  datatype Precision =
    | DynamicFixedPoint
    | MiniFloat
    | IntegerPowerOf2Weights
    | OtherPrecision(code: int)

  datatype Rounding = Nearest | Stochastic

  datatype Phase = Train | Test

  /** The quantization part of a layer's configuration. */
  datatype QuantizationParameter = QuantizationParameter(
    precision: Precision,
    roundingScheme: Rounding,
    bwLayerIn: int, bwLayerOut: int, bwParams: int,
    flLayerIn: int, flLayerOut: int, flParams: int,
    mantBits: int, expBits: int,
    expMin: int, expMax: int)

  /** The quantization settings held by the layer object. */
  datatype QuantSettings = QuantSettings(
    precision: Precision,
    rounding: Rounding,
    bwLayerIn: int, bwLayerOut: int, bwParams: int,
    flLayerIn: int, flLayerOut: int, flParams: int,
    fpMant: int, fpExp: int,
    pow2MinExp: int, pow2MaxExp: int)

  datatype ConfigError = UnknownPrecision(code: int)

  /** The mode-specific numeric settings. */
  datatype Field =
    | BwLayerIn | BwLayerOut | BwParams
    | FlLayerIn | FlLayerOut | FlParams
    | MantBits | ExpBits
    | ExpMin | ExpMax

  /** Which numeric settings each precision mode uses: fixed point uses the
      bit-widths and fractional lengths of input, output and parameters;
      minifloat its mantissa and exponent widths; power-of-two weights its
      exponent range plus the fixed-point settings of input and output
      (weights are exponent-only, activations stay fixed point). */
  function UsedFields(p: Precision): set<Field>
  {
    match p
    case DynamicFixedPoint =>
      {BwLayerIn, BwLayerOut, BwParams, FlLayerIn, FlLayerOut, FlParams}
    case MiniFloat => {MantBits, ExpBits}
    case IntegerPowerOf2Weights =>
      {ExpMin, ExpMax, BwLayerIn, BwLayerOut, FlLayerIn, FlLayerOut}
    case OtherPrecision(_) => {}
  }

  /** The value of a numeric setting held by the layer. */
  function Setting(s: QuantSettings, f: Field): int
  {
    match f
    case BwLayerIn => s.bwLayerIn
    case BwLayerOut => s.bwLayerOut
    case BwParams => s.bwParams
    case FlLayerIn => s.flLayerIn
    case FlLayerOut => s.flLayerOut
    case FlParams => s.flParams
    case MantBits => s.fpMant
    case ExpBits => s.fpExp
    case ExpMin => s.pow2MinExp
    case ExpMax => s.pow2MaxExp
  }

  /** The value of a numeric setting in the configuration. */
  function Configured(q: QuantizationParameter, f: Field): int
  {
    match f
    case BwLayerIn => q.bwLayerIn
    case BwLayerOut => q.bwLayerOut
    case BwParams => q.bwParams
    case FlLayerIn => q.flLayerIn
    case FlLayerOut => q.flLayerOut
    case FlParams => q.flParams
    case MantBits => q.mantBits
    case ExpBits => q.expBits
    case ExpMin => q.expMin
    case ExpMax => q.expMax
  }

  /** The constructor's dispatch on the precision mode. `inherited` is what
      the settings hold before (as the base layer's constructor leaves them).
      Precision and rounding scheme are always taken over; of the numeric
      settings exactly those the mode uses are copied and every other one
      keeps its inherited value. An unknown mode is an error. */
  function Configure(inherited: QuantSettings, q: QuantizationParameter): (r: Result<QuantSettings, ConfigError>)
    ensures r.Failure? <==> q.precision.OtherPrecision?
    ensures r.Failure? ==> r.error == UnknownPrecision(q.precision.code)
    ensures r.Success? ==> r.value.precision == q.precision && r.value.rounding == q.roundingScheme
    ensures r.Success? ==>
      forall f :: Setting(r.value, f) == (if f in UsedFields(q.precision) then Configured(q, f) else Setting(inherited, f))
  {
    var s := inherited.(precision := q.precision, rounding := q.roundingScheme);
    match q.precision
    case DynamicFixedPoint =>
      Success(s.(bwLayerIn := q.bwLayerIn, bwLayerOut := q.bwLayerOut, bwParams := q.bwParams,
                 flLayerIn := q.flLayerIn, flLayerOut := q.flLayerOut, flParams := q.flParams))
    case MiniFloat =>
      Success(s.(fpMant := q.mantBits, fpExp := q.expBits))
    case IntegerPowerOf2Weights =>
      Success(s.(pow2MinExp := q.expMin, pow2MaxExp := q.expMax,
                 bwLayerIn := q.bwLayerIn, bwLayerOut := q.bwLayerOut,
                 flLayerIn := q.flLayerIn, flLayerOut := q.flLayerOut))
    case OtherPrecision(code) =>
      Failure(UnknownPrecision(code))
  }

  /** Under power-of-two weights the parameter bit-width and fractional
      length are not taken from the configuration: whatever the
      configuration says, they keep their inherited values. */
  lemma PowerOf2KeepsParamFixedPoint(inherited: QuantSettings, q: QuantizationParameter)
    requires q.precision == IntegerPowerOf2Weights
    ensures Configure(inherited, q).Success?
    ensures Configure(inherited, q).value.bwParams == inherited.bwParams
    ensures Configure(inherited, q).value.flParams == inherited.flParams
  {
    var r := Configure(inherited, q);
    assert Setting(r.value, BwParams) == Setting(inherited, BwParams);
    assert Setting(r.value, FlParams) == Setting(inherited, FlParams);
  }

  /** The rounding scheme the forward pass quantizes the slope with: the
      configured scheme in the test phase, stochastic rounding otherwise.
      Rounding is therefore deterministic exactly when the layer is in the
      test phase and configured for round-to-nearest. */
  function ForwardRounding(phase: Phase, configured: Rounding): (r: Rounding)
    ensures r == Nearest <==> phase == Test && configured == Nearest
    ensures phase == Test ==> r == configured
  {
    if phase == Test then configured else Stochastic
  }
}
