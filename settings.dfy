/**
 * The per-view settings block of the effect: the numeric parameters the
 * shaders read, the named presets built from `DEFAULT` by struct update, the
 * integer codes of the two enums stored in it, and the two pass toggles.
 * The f32 constants are kept as reals: nothing here computes with them.
 */
module Settings {
  import opened Wrappers

  /** The engine's `i32`. */
  newtype i32 = x: int | -0x8000_0000 <= x < 0x8000_0000

  datatype Thresholding = NoThreshold | Tanh | Quantization | SmoothQuantization

  datatype BlendMode = NoBlend | Interpolate | TwoPointInterpolate

  /** The shader-side reading of a stored thresholding code; other codes name no mode. */
  function ThresholdingOfCode(c: i32): Option<Thresholding> {
    if c == 0 then Some(NoThreshold)
    else if c == 1 then Some(Tanh)
    else if c == 2 then Some(Quantization)
    else if c == 3 then Some(SmoothQuantization)
    else None
  }

  /** `Thresholding::X as i32`: the declaration index of the variant. */
  function ThresholdingCode(t: Thresholding): (c: i32)
    ensures 0 <= c <= 3
    ensures ThresholdingOfCode(c) == Some(t)
  {
    match t
    case NoThreshold => 0
    case Tanh => 1
    case Quantization => 2
    case SmoothQuantization => 3
  }

  function BlendModeOfCode(c: i32): Option<BlendMode> {
    if c == 0 then Some(NoBlend)
    else if c == 1 then Some(Interpolate)
    else if c == 2 then Some(TwoPointInterpolate)
    else None
  }

  /** `BlendMode::X as i32`: the declaration index of the variant. */
  function BlendModeCode(b: BlendMode): (c: i32)
    ensures 0 <= c <= 2
    ensures BlendModeOfCode(c) == Some(b)
  {
    match b
    case NoBlend => 0
    case Interpolate => 1
    case TwoPointInterpolate => 2
  }

  /** The codes are exactly the declaration indices: every code in range names one variant. */
  lemma CodesAreDeclarationIndices(c: i32)
    ensures ThresholdingOfCode(c).Some? <==> 0 <= c <= 3
    ensures ThresholdingOfCode(c).Some? ==> ThresholdingCode(ThresholdingOfCode(c).value) == c
    ensures BlendModeOfCode(c).Some? <==> 0 <= c <= 2
    ensures BlendModeOfCode(c).Some? ==> BlendModeCode(BlendModeOfCode(c).value) == c
  {
  }

  datatype Vec2 = Vec2(x: real, y: real)
  datatype Vec3 = Vec3(x: real, y: real, z: real)
  datatype Vec4 = Vec4(x: real, y: real, z: real, w: real)

  const VEC2_ONE := Vec2(1.0, 1.0)
  const VEC3_ZERO := Vec3(0.0, 0.0, 0.0)
  const VEC3_ONE := Vec3(1.0, 1.0, 1.0)
  const VEC4_ONE := Vec4(1.0, 1.0, 1.0, 1.0)

  function Splat(v: real): Vec4 { Vec4(v, v, v, v) }

  /** Component `i` (0..3) of a four-vector. */
  function At(v: Vec4, i: nat): real
    requires i < 4
  {
    if i == 0 then v.x else if i == 1 then v.y else if i == 2 then v.z else v.w
  }

  /** The settings block, field for field and in declaration order. */
  datatype DoGSettings = DoGSettings(
    thresholding: i32,
    blendMode: i32,
    invert: i32,
    calcDiffBeforeConvolution: i32,
    sigmaC: real,
    sigmaE: real,
    sigmaM: real,
    sigmaA: real,
    quantizerStep: real,
    k: real,
    tau: real,
    phi: real,
    blendStrength: real,
    dogStrength: real,
    lineConvStepSizes: Vec2,
    edgeSmoothStepSizes: Vec2,
    minColor: Vec3,
    maxColor: Vec3,
    enableHatch: i32,
    enableLayers: Vec4,
    hatchResolutions: Vec4,
    hatchRotations: Vec4,
    thresholds: Vec4)

  /** The names of the settings fields, to say which fields two blocks differ in. */
  datatype Field =
    | ThresholdingField | BlendModeField | InvertField | CalcDiffField
    | SigmaCField | SigmaEField | SigmaMField | SigmaAField | QuantizerStepField
    | KField | TauField | PhiField | BlendStrengthField | DogStrengthField
    | LineConvStepSizesField | EdgeSmoothStepSizesField | MinColorField | MaxColorField
    | EnableHatchField | EnableLayersField | HatchResolutionsField | HatchRotationsField
    | ThresholdsField

  const ALL_FIELDS: set<Field> := {
    ThresholdingField, BlendModeField, InvertField, CalcDiffField,
    SigmaCField, SigmaEField, SigmaMField, SigmaAField, QuantizerStepField,
    KField, TauField, PhiField, BlendStrengthField, DogStrengthField,
    LineConvStepSizesField, EdgeSmoothStepSizesField, MinColorField, MaxColorField,
    EnableHatchField, EnableLayersField, HatchResolutionsField, HatchRotationsField,
    ThresholdsField }

  /** Whether two settings blocks hold the same value in field `f`. */
  predicate AgreeOn(a: DoGSettings, b: DoGSettings, f: Field) {
    match f
    case ThresholdingField => a.thresholding == b.thresholding
    case BlendModeField => a.blendMode == b.blendMode
    case InvertField => a.invert == b.invert
    case CalcDiffField => a.calcDiffBeforeConvolution == b.calcDiffBeforeConvolution
    case SigmaCField => a.sigmaC == b.sigmaC
    case SigmaEField => a.sigmaE == b.sigmaE
    case SigmaMField => a.sigmaM == b.sigmaM
    case SigmaAField => a.sigmaA == b.sigmaA
    case QuantizerStepField => a.quantizerStep == b.quantizerStep
    case KField => a.k == b.k
    case TauField => a.tau == b.tau
    case PhiField => a.phi == b.phi
    case BlendStrengthField => a.blendStrength == b.blendStrength
    case DogStrengthField => a.dogStrength == b.dogStrength
    case LineConvStepSizesField => a.lineConvStepSizes == b.lineConvStepSizes
    case EdgeSmoothStepSizesField => a.edgeSmoothStepSizes == b.edgeSmoothStepSizes
    case MinColorField => a.minColor == b.minColor
    case MaxColorField => a.maxColor == b.maxColor
    case EnableHatchField => a.enableHatch == b.enableHatch
    case EnableLayersField => a.enableLayers == b.enableLayers
    case HatchResolutionsField => a.hatchResolutions == b.hatchResolutions
    case HatchRotationsField => a.hatchRotations == b.hatchRotations
    case ThresholdsField => a.thresholds == b.thresholds
  }

  /** The fields in which two settings blocks differ. */
  function Differing(a: DoGSettings, b: DoGSettings): (d: set<Field>)
    ensures forall f :: f in d <==> !AgreeOn(a, b, f)
  {
    AllFieldsListed();
    set f | f in ALL_FIELDS && !AgreeOn(a, b, f)
  }

  lemma AllFieldsListed()
    ensures forall f: Field :: f in ALL_FIELDS
  {
    forall f: Field
      ensures f in ALL_FIELDS
    {
      match f
      case ThresholdingField =>
      case BlendModeField =>
      case InvertField =>
      case CalcDiffField =>
      case SigmaCField =>
      case SigmaEField =>
      case SigmaMField =>
      case SigmaAField =>
      case QuantizerStepField =>
      case KField =>
      case TauField =>
      case PhiField =>
      case BlendStrengthField =>
      case DogStrengthField =>
      case LineConvStepSizesField =>
      case EdgeSmoothStepSizesField =>
      case MinColorField =>
      case MaxColorField =>
      case EnableHatchField =>
      case EnableLayersField =>
      case HatchResolutionsField =>
      case HatchRotationsField =>
      case ThresholdsField =>
    }
  }

  /** Two blocks that differ in no field are the same block. */
  lemma NoDifferenceMeansEqual(a: DoGSettings, b: DoGSettings)
    requires Differing(a, b) == {}
    ensures a == b
  {
    assert a.thresholding == b.thresholding by { assert ThresholdingField !in Differing(a, b); }
    assert a.blendMode == b.blendMode by { assert BlendModeField !in Differing(a, b); }
    assert a.invert == b.invert by { assert InvertField !in Differing(a, b); }
    assert a.calcDiffBeforeConvolution == b.calcDiffBeforeConvolution by { assert CalcDiffField !in Differing(a, b); }
    assert a.sigmaC == b.sigmaC by { assert SigmaCField !in Differing(a, b); }
    assert a.sigmaE == b.sigmaE by { assert SigmaEField !in Differing(a, b); }
    assert a.sigmaM == b.sigmaM by { assert SigmaMField !in Differing(a, b); }
    assert a.sigmaA == b.sigmaA by { assert SigmaAField !in Differing(a, b); }
    assert a.quantizerStep == b.quantizerStep by { assert QuantizerStepField !in Differing(a, b); }
    assert a.k == b.k by { assert KField !in Differing(a, b); }
    assert a.tau == b.tau by { assert TauField !in Differing(a, b); }
    assert a.phi == b.phi by { assert PhiField !in Differing(a, b); }
    assert a.blendStrength == b.blendStrength by { assert BlendStrengthField !in Differing(a, b); }
    assert a.dogStrength == b.dogStrength by { assert DogStrengthField !in Differing(a, b); }
    assert a.lineConvStepSizes == b.lineConvStepSizes by { assert LineConvStepSizesField !in Differing(a, b); }
    assert a.edgeSmoothStepSizes == b.edgeSmoothStepSizes by { assert EdgeSmoothStepSizesField !in Differing(a, b); }
    assert a.minColor == b.minColor by { assert MinColorField !in Differing(a, b); }
    assert a.maxColor == b.maxColor by { assert MaxColorField !in Differing(a, b); }
    assert a.enableHatch == b.enableHatch by { assert EnableHatchField !in Differing(a, b); }
    assert a.enableLayers == b.enableLayers by { assert EnableLayersField !in Differing(a, b); }
    assert a.hatchResolutions == b.hatchResolutions by { assert HatchResolutionsField !in Differing(a, b); }
    assert a.hatchRotations == b.hatchRotations by { assert HatchRotationsField !in Differing(a, b); }
    assert a.thresholds == b.thresholds by { assert ThresholdsField !in Differing(a, b); }
  }

  /** `DoGSettings::DEFAULT`. */
  const DEFAULT: DoGSettings := DoGSettings(
    thresholding := ThresholdingCode(NoThreshold),
    blendMode := BlendModeCode(NoBlend),
    invert := 0,
    calcDiffBeforeConvolution := 0,
    sigmaC := 2.0,
    sigmaE := 2.0,
    sigmaM := 2.0,
    sigmaA := 1.0,
    quantizerStep := 2.0,
    k := 1.6,
    tau := 1.0,
    phi := 1.0,
    blendStrength := 1.0,
    dogStrength := 1.0,
    lineConvStepSizes := VEC2_ONE,
    edgeSmoothStepSizes := VEC2_ONE,
    minColor := VEC3_ZERO,
    maxColor := VEC3_ONE,
    enableHatch := 0,
    enableLayers := Vec4(1.0, 0.0, 0.0, 0.0),
    hatchResolutions := VEC4_ONE,
    hatchRotations := Vec4(15.0, 60.0, 105.0, 170.0),
    thresholds := Vec4(90.0, 20.0, 30.0, 40.0))

  /** `impl Default for DoGSettings`, written out separately from `DEFAULT`; the two agree. */
  function Default(): (s: DoGSettings)
    ensures s == DEFAULT
  {
    DoGSettings(
      thresholding := ThresholdingCode(NoThreshold),
      blendMode := BlendModeCode(NoBlend),
      invert := 0,
      calcDiffBeforeConvolution := 0,
      sigmaC := 2.0,
      sigmaE := 2.0,
      sigmaM := 2.0,
      sigmaA := 1.0,
      quantizerStep := 2.0,
      k := 1.6,
      tau := 1.0,
      phi := 1.0,
      blendStrength := 1.0,
      dogStrength := 1.0,
      lineConvStepSizes := VEC2_ONE,
      edgeSmoothStepSizes := VEC2_ONE,
      minColor := VEC3_ZERO,
      maxColor := VEC3_ONE,
      enableHatch := 0,
      enableLayers := Vec4(1.0, 0.0, 0.0, 0.0),
      hatchResolutions := VEC4_ONE,
      hatchRotations := Vec4(15.0, 60.0, 105.0, 170.0),
      thresholds := Vec4(90.0, 20.0, 30.0, 40.0))
  }

  /** `DoGSettings::OUTLINE_DITHER`: `DEFAULT` with seven fields replaced. */
  const OUTLINE_DITHER: DoGSettings := DEFAULT.(
    k := 0.5,
    tau := 32.0,
    phi := 0.8,
    thresholding := ThresholdingCode(Tanh),
    thresholds := Vec4(12.0, 6.0, 3.0, 0.5),
    minColor := Vec3(0.5, 0.4, 0.4),
    maxColor := Vec3(0.8, 1.0, 0.9))

  /** `DoGSettings::CROSSHATCH`: `DEFAULT` with nine fields replaced. */
  const CROSSHATCH: DoGSettings := DEFAULT.(
    tau := 4.0,
    blendStrength := 0.9,
    maxColor := Vec3(0.8, 0.85, 0.81),
    phi := 2.0,
    thresholding := ThresholdingCode(Tanh),
    enableLayers := Vec4(1.0, 1.0, 1.0, 1.0),
    thresholds := Vec4(0.2, 1.3, 0.7, 0.5),
    enableHatch := 1,
    hatchResolutions := Splat(6.2))

  /** `DoGSettings::OUTLINE`: `DEFAULT` with a stronger edge bias. */
  const OUTLINE: DoGSettings := DEFAULT.(tau := 15.0)

  lemma OutlineDitherDiffersFromDefault()
    ensures Differing(OUTLINE_DITHER, DEFAULT)
         == {KField, TauField, PhiField, ThresholdingField, ThresholdsField, MinColorField, MaxColorField}
    ensures ThresholdingOfCode(OUTLINE_DITHER.thresholding) == Some(Tanh)
  {
  }

  lemma CrosshatchDiffersFromDefault()
    ensures Differing(CROSSHATCH, DEFAULT)
         == {TauField, BlendStrengthField, MaxColorField, PhiField, ThresholdingField,
             EnableLayersField, ThresholdsField, EnableHatchField, HatchResolutionsField}
    ensures ThresholdingOfCode(CROSSHATCH.thresholding) == Some(Tanh)
  {
  }

  lemma OutlineDiffersFromDefault()
    ensures Differing(OUTLINE, DEFAULT) == {TauField}
    ensures OUTLINE.tau == 15.0
  {
  }

  /** The threshold layers a settings block switches on (a non-zero mask component). */
  function EnabledLayers(s: DoGSettings): set<nat> {
    set i | 0 <= i < 4 && At(s.enableLayers, i) != 0.0
  }

  lemma PresetLayers()
    ensures EnabledLayers(DEFAULT) == {0}
    ensures EnabledLayers(CROSSHATCH) == {0, 1, 2, 3}
    ensures ThresholdingOfCode(DEFAULT.thresholding) == Some(NoThreshold)
    ensures BlendModeOfCode(DEFAULT.blendMode) == Some(NoBlend)
  {
    assert 0 in EnabledLayers(DEFAULT);
    assert 1 in EnabledLayers(CROSSHATCH) && 2 in EnabledLayers(CROSSHATCH) && 3 in EnabledLayers(CROSSHATCH);
    assert 0 in EnabledLayers(CROSSHATCH);
  }

  /** The two pass toggles; the node compares each with 1. */
  datatype PassesSettings = PassesSettings(aa: i32, tfm: i32)

  /** `impl Default for PassesSettings`: both toggles off. */
  function DefaultPasses(): (p: PassesSettings)
    ensures p.aa != 1 && p.tfm != 1
  {
    PassesSettings(aa := 0, tfm := 0)
  }
}
