/**
 * The fixed-function pipeline state a rendering context tracks
 * (RenderingContext/internal/PipelineState.h, RenderingContext/PipelineState.cpp).
 *
 * A PipelineState holds one value per category (viewport, scissor, FBO,
 * shader, vertex format and bindings, blending, colour mask, culling, depth,
 * line, polygon mode and offset, stencil, textures). Four categories plus the
 * vertex format and bindings also keep a check number. The context keeps a
 * target state that callers change and an active state that mirrors what was
 * last sent to the device. makeDiff compares the two into a set of category
 * bits; apply sends the device commands for the flagged categories. Device
 * commands are modelled as a returned command log; an exception thrown
 * part-way through apply ends the log and is reported beside it.
 */
module PipelineStates {
  import opened Numeric
  import opened RenderingParameters

  /** PipelineState::MAX_VERTEXATTRIBS and MAX_VERTEXBINDINGS. */
  const MAX_VERTEXATTRIBS: nat := 16
  const MAX_VERTEXBINDINGS: nat := 16

  // ---------------------------------------------------------------------------
  // Parameter values

  datatype Rect = Rect(x: int, y: int, width: int, height: int)

  datatype Color4 = Color4(r: real, g: real, b: real, a: real)

  datatype ScissorParameters = ScissorParameters(enabled: bool, rect: Rect)

  /** Blend functions and equations are enumerators, kept as their codes. */
  datatype BlendingParameters = BlendingParameters(
    enabled: bool,
    srcRGB: nat, dstRGB: nat, srcAlpha: nat, dstAlpha: nat,
    color: Color4,
    equationRGB: nat, equationAlpha: nat)

  datatype ColorBufferParameters = ColorBufferParameters(red: bool, green: bool, blue: bool, alpha: bool)

  /** CullFaceParameters::cullFaceMode_t; any other enumerator value is kept as its code. */
  datatype CullFaceMode = CullBack | CullFront | CullFrontAndBack | OtherCullMode(code: int)

  datatype CullFaceParameters = CullFaceParameters(enabled: bool, mode: CullFaceMode)

  datatype DepthBufferParameters = DepthBufferParameters(testEnabled: bool, writingEnabled: bool, compare: nat)

  datatype LineParameters = LineParameters(width: real)

  datatype PolygonModeParameters = PolygonModeParameters(mode: nat)

  datatype PolygonOffsetParameters = PolygonOffsetParameters(enabled: bool, factor: real, units: real)

  /** StencilParameters::action_t; any other enumerator value is kept as its code. */
  datatype StencilAction = Keep | Zero | Replace | Incr | IncrWrap | Decr | DecrWrap | Invert | OtherAction(code: int)

  datatype StencilParameters = StencilParameters(
    enabled: bool,
    compare: nat, referenceValue: int, bitMask: nat,
    failAction: StencilAction, depthTestFailAction: StencilAction, depthTestPassAction: StencilAction)

  /** differentFunctionParameters: comparison function, reference value or mask differ. */
  predicate DifferentFunctionParameters(a: StencilParameters, b: StencilParameters)
  {
    a.compare != b.compare || a.referenceValue != b.referenceValue || a.bitMask != b.bitMask
  }

  /** differentActionParameters: one of the three actions differs. */
  predicate DifferentActionParameters(a: StencilParameters, b: StencilParameters)
  {
    a.failAction != b.failAction || a.depthTestFailAction != b.depthTestFailAction
    || a.depthTestPassAction != b.depthTestPassAction
  }

  /** A vertex attribute's format; one with no values is "empty" (unused location). */
  datatype VertexAttribute = VertexAttribute(
    numValues: nat, dataType: nat, offset: nat, normalize: bool, convertToFloat: bool, nameId: nat)
  {
    predicate Empty() { numValues == 0 }
  }

  /** A default-constructed VertexAttribute. */
  const EMPTY_ATTRIBUTE: VertexAttribute := VertexAttribute(0, 0, 0, false, false, 0)

  /** The (buffer, offset, stride, divisor) tuple of a vertex buffer binding point. */
  datatype VertexBinding = VertexBinding(buffer: uint32, offset: uint32, stride: uint32, divisor: uint32)

  /** Everything a PipelineState holds, as one value. */
  datatype PipelineValue = PipelineValue(
    viewport: Rect,
    scissor: ScissorParameters,
    fbo: Handle,
    shader: Handle,
    vertexFormatCheckNumber: uint32,
    vertexFormat: seq<(VertexAttribute, uint32)>,
    vertexBindingCheckNumber: uint32,
    vertexBindings: seq<VertexBinding>,
    blendingCheckNumber: uint32,
    blending: BlendingParameters,
    colorBuffer: ColorBufferParameters,
    cullFace: CullFaceParameters,
    depthBuffer: DepthBufferParameters,
    line: LineParameters,
    polygonMode: PolygonModeParameters,
    polygonOffset: PolygonOffsetParameters,
    stencilCheckNumber: uint32,
    stencil: StencilParameters,
    texturesCheckNumber: uint32,
    boundTextures: seq<Handle>)

  predicate ValueValid(v: PipelineValue)
  {
    |v.vertexFormat| == MAX_VERTEXATTRIBS && |v.vertexBindings| == MAX_VERTEXBINDINGS
    && |v.boundTextures| == MAX_TEXTURES
  }

  // ---------------------------------------------------------------------------
  // Change predicates: `a` is the state at hand, `t` the one compared with

  /** vertexFormatChanged. */
  function VertexFormatChanged(a: PipelineValue, t: PipelineValue): (r: bool)
    ensures a.vertexFormatCheckNumber == t.vertexFormatCheckNumber ==> !r
    ensures r ==> a.vertexFormat != t.vertexFormat
  {
    if a.vertexFormatCheckNumber == t.vertexFormatCheckNumber then false else a.vertexFormat != t.vertexFormat
  }

  /** vertexBindingChanged. */
  function VertexBindingChanged(a: PipelineValue, t: PipelineValue): (r: bool)
    ensures a.vertexBindingCheckNumber == t.vertexBindingCheckNumber ==> !r
    ensures r ==> a.vertexBindings != t.vertexBindings
  {
    if a.vertexBindingCheckNumber == t.vertexBindingCheckNumber then false else a.vertexBindings != t.vertexBindings
  }

  /** blendingParametersChanged. */
  function BlendingChanged(a: PipelineValue, t: PipelineValue): (r: bool)
    ensures a.blendingCheckNumber == t.blendingCheckNumber ==> !r
    ensures r ==> a.blending != t.blending
  {
    if a.blendingCheckNumber == t.blendingCheckNumber then false else a.blending != t.blending
  }

  /** stencilParametersChanged. */
  function StencilChanged(a: PipelineValue, t: PipelineValue): (r: bool)
    ensures a.stencilCheckNumber == t.stencilCheckNumber ==> !r
    ensures r ==> a.stencil != t.stencil
  {
    if a.stencilCheckNumber == t.stencilCheckNumber then false else a.stencil != t.stencil
  }

  /** texturesChanged. */
  function TexturesChanged(a: PipelineValue, t: PipelineValue): (r: bool)
    ensures a.texturesCheckNumber == t.texturesCheckNumber ==> !r
    ensures r ==> a.boundTextures != t.boundTextures
  {
    if a.texturesCheckNumber == t.texturesCheckNumber then false else a.boundTextures != t.boundTextures
  }

  // ---------------------------------------------------------------------------
  // makeDiff

  /** The bits of PipelineState::StateDiff_t. */
  datatype DiffBit =
    | ViewportBit | ScissorBit | FboBit | ProgramBit | VertexFormatBit | VertexBindingBit
    | BlendBit | BlendEnabledBit | BlendFuncBit | BlendColorBit | BlendEquationBit
    | ColorBufferBit | CullFaceBit | DepthBufferBit | LineParamBit | PolygonModeBit | PolygonOffsetBit
    | StencilBit | StencilEnabledBit | StencilFuncBit | StencilOpBit
    | TextureBindingBit
  {
    /** The top-level bit a sub-bit refines (BLEND_BIT, STENCIL_BIT); a top-level bit refines itself. */
    function Parent(): DiffBit
    {
      match this
      case BlendEnabledBit | BlendFuncBit | BlendColorBit | BlendEquationBit => BlendBit
      case StencilEnabledBit | StencilFuncBit | StencilOpBit => StencilBit
      case _ => this
    }
  }

  /** StateDiff_t: one flag per bit. */
  datatype StateDiff = StateDiff(
    viewport: bool, scissor: bool, fbo: bool, program: bool, vertexFormat: bool, vertexBinding: bool,
    blend: bool, blendEnabled: bool, blendFunc: bool, blendColor: bool, blendEquation: bool,
    colorBuffer: bool, cullFace: bool, depthBuffer: bool, lineParam: bool, polygonMode: bool, polygonOffset: bool,
    stencil: bool, stencilEnabled: bool, stencilFunc: bool, stencilOp: bool,
    textureBinding: bool)
  {
    /** diff[bit]. */
    predicate Has(bit: DiffBit)
    {
      match bit
      case ViewportBit => viewport
      case ScissorBit => scissor
      case FboBit => fbo
      case ProgramBit => program
      case VertexFormatBit => vertexFormat
      case VertexBindingBit => vertexBinding
      case BlendBit => blend
      case BlendEnabledBit => blendEnabled
      case BlendFuncBit => blendFunc
      case BlendColorBit => blendColor
      case BlendEquationBit => blendEquation
      case ColorBufferBit => colorBuffer
      case CullFaceBit => cullFace
      case DepthBufferBit => depthBuffer
      case LineParamBit => lineParam
      case PolygonModeBit => polygonMode
      case PolygonOffsetBit => polygonOffset
      case StencilBit => stencil
      case StencilEnabledBit => stencilEnabled
      case StencilFuncBit => stencilFunc
      case StencilOpBit => stencilOp
      case TextureBindingBit => textureBinding
    }
  }

  /** diff.set(): every bit. */
  const ALL_BITS: StateDiff := StateDiff(
    true, true, true, true, true, true,
    true, true, true, true, true,
    true, true, true, true, true, true,
    true, true, true, true,
    true)

  /** A default-constructed StateDiff_t: no bit. */
  const NO_BITS: StateDiff := StateDiff(
    false, false, false, false, false, false,
    false, false, false, false, false,
    false, false, false, false, false, false,
    false, false, false, false,
    false)

  /**
   * When a single bit is set in an unforced diff of `a` against `t`. The blend
   * and stencil sub-bits are only looked at when their category has changed.
   */
  predicate Flagged(a: PipelineValue, t: PipelineValue, bit: DiffBit)
  {
    match bit
    case ViewportBit => a.viewport != t.viewport
    case ScissorBit => a.scissor != t.scissor
    case FboBit => a.fbo != t.fbo
    case ProgramBit => a.shader != t.shader
    case VertexFormatBit => VertexFormatChanged(a, t)
    case VertexBindingBit => VertexBindingChanged(a, t)
    case BlendBit => BlendingChanged(a, t)
    case BlendEnabledBit => BlendingChanged(a, t) && a.blending.enabled != t.blending.enabled
    case BlendFuncBit =>
      BlendingChanged(a, t)
      && (a.blending.srcRGB != t.blending.srcRGB || a.blending.dstRGB != t.blending.dstRGB
          || a.blending.srcAlpha != t.blending.srcAlpha || a.blending.dstAlpha != t.blending.dstAlpha)
    case BlendColorBit => BlendingChanged(a, t) && a.blending.color != t.blending.color
    case BlendEquationBit =>
      BlendingChanged(a, t)
      && (a.blending.equationRGB != t.blending.equationRGB || a.blending.equationAlpha != t.blending.equationAlpha)
    case ColorBufferBit => a.colorBuffer != t.colorBuffer
    case CullFaceBit => a.cullFace != t.cullFace
    case DepthBufferBit => a.depthBuffer != t.depthBuffer
    case LineParamBit => a.line != t.line
    case PolygonModeBit => a.polygonMode != t.polygonMode
    case PolygonOffsetBit => a.polygonOffset != t.polygonOffset
    case StencilBit => StencilChanged(a, t)
    case StencilEnabledBit => StencilChanged(a, t) && a.stencil.enabled != t.stencil.enabled
    case StencilFuncBit => StencilChanged(a, t) && DifferentFunctionParameters(a.stencil, t.stencil)
    case StencilOpBit => StencilChanged(a, t) && DifferentActionParameters(a.stencil, t.stencil)
    case TextureBindingBit => TexturesChanged(a, t)
  }

  /** makeDiff: every bit when forced; otherwise one bit per changed category. */
  function MakeDiff(a: PipelineValue, t: PipelineValue, forced: bool): (diff: StateDiff)
    ensures forced ==> diff == ALL_BITS
  {
    if forced then ALL_BITS
    else
      var blend := BlendingChanged(a, t);
      var stencil := StencilChanged(a, t);
      StateDiff(
        viewport := a.viewport != t.viewport,
        scissor := a.scissor != t.scissor,
        fbo := a.fbo != t.fbo,
        program := a.shader != t.shader,
        vertexFormat := VertexFormatChanged(a, t),
        vertexBinding := VertexBindingChanged(a, t),
        blend := blend,
        blendEnabled := blend && a.blending.enabled != t.blending.enabled,
        blendFunc := blend && (a.blending.srcRGB != t.blending.srcRGB || a.blending.dstRGB != t.blending.dstRGB
          || a.blending.srcAlpha != t.blending.srcAlpha || a.blending.dstAlpha != t.blending.dstAlpha),
        blendColor := blend && a.blending.color != t.blending.color,
        blendEquation := blend && (a.blending.equationRGB != t.blending.equationRGB
          || a.blending.equationAlpha != t.blending.equationAlpha),
        colorBuffer := a.colorBuffer != t.colorBuffer,
        cullFace := a.cullFace != t.cullFace,
        depthBuffer := a.depthBuffer != t.depthBuffer,
        lineParam := a.line != t.line,
        polygonMode := a.polygonMode != t.polygonMode,
        polygonOffset := a.polygonOffset != t.polygonOffset,
        stencil := stencil,
        stencilEnabled := stencil && a.stencil.enabled != t.stencil.enabled,
        stencilFunc := stencil && DifferentFunctionParameters(a.stencil, t.stencil),
        stencilOp := stencil && DifferentActionParameters(a.stencil, t.stencil),
        textureBinding := TexturesChanged(a, t))
  }

  /** An unforced diff holds exactly the bits whose category (and, for a sub-bit, whose part) changed. */
  lemma MakeDiffFlagsChangedCategories(a: PipelineValue, t: PipelineValue, bit: DiffBit)
    ensures MakeDiff(a, t, false).Has(bit) <==> Flagged(a, t, bit)
  {
    match bit
    case ViewportBit =>
    case ScissorBit =>
    case FboBit =>
    case ProgramBit =>
    case VertexFormatBit =>
    case VertexBindingBit =>
    case BlendBit =>
    case BlendEnabledBit =>
    case BlendFuncBit =>
    case BlendColorBit =>
    case BlendEquationBit =>
    case ColorBufferBit =>
    case CullFaceBit =>
    case DepthBufferBit =>
    case LineParamBit =>
    case PolygonModeBit =>
    case PolygonOffsetBit =>
    case StencilBit =>
    case StencilEnabledBit =>
    case StencilFuncBit =>
    case StencilOpBit =>
    case TextureBindingBit =>
  }

  /** A sub-bit is never set without its category's bit, forced or not. */
  lemma SubBitsNeedTheirCategory(a: PipelineValue, t: PipelineValue, forced: bool, bit: DiffBit)
    requires MakeDiff(a, t, forced).Has(bit)
    ensures MakeDiff(a, t, forced).Has(bit.Parent())
  {
    if !forced {
      MakeDiffFlagsChangedCategories(a, t, bit);
      MakeDiffFlagsChangedCategories(a, t, bit.Parent());
    }
  }

  /** A state compared with an identical one yields an empty unforced diff. */
  lemma DiffWithItselfIsEmpty(v: PipelineValue)
    ensures MakeDiff(v, v, false) == NO_BITS
  {
  }

  /** An unflagged category without a check number holds equal values in both states. */
  lemma UnflaggedCategoryIsEqual(a: PipelineValue, t: PipelineValue)
    ensures !MakeDiff(a, t, false).viewport ==> a.viewport == t.viewport
    ensures !MakeDiff(a, t, false).scissor ==> a.scissor == t.scissor
    ensures !MakeDiff(a, t, false).fbo ==> a.fbo == t.fbo
    ensures !MakeDiff(a, t, false).program ==> a.shader == t.shader
    ensures !MakeDiff(a, t, false).colorBuffer ==> a.colorBuffer == t.colorBuffer
    ensures !MakeDiff(a, t, false).cullFace ==> a.cullFace == t.cullFace
    ensures !MakeDiff(a, t, false).depthBuffer ==> a.depthBuffer == t.depthBuffer
    ensures !MakeDiff(a, t, false).lineParam ==> a.line == t.line
    ensures !MakeDiff(a, t, false).polygonMode ==> a.polygonMode == t.polygonMode
    ensures !MakeDiff(a, t, false).polygonOffset ==> a.polygonOffset == t.polygonOffset
  {
  }

  /**
   * An unflagged category with a check number holds equal values, or the
   * check numbers agree (so a change made without bumping the number, or
   * undone by a matching bump, is not seen).
   */
  lemma UnflaggedCountedCategoryIsInSync(a: PipelineValue, t: PipelineValue)
    ensures !MakeDiff(a, t, false).blend ==>
      (a.blending == t.blending || a.blendingCheckNumber == t.blendingCheckNumber)
    ensures !MakeDiff(a, t, false).stencil ==>
      (a.stencil == t.stencil || a.stencilCheckNumber == t.stencilCheckNumber)
    ensures !MakeDiff(a, t, false).textureBinding ==>
      (a.boundTextures == t.boundTextures || a.texturesCheckNumber == t.texturesCheckNumber)
    ensures !MakeDiff(a, t, false).vertexFormat ==>
      (a.vertexFormat == t.vertexFormat || a.vertexFormatCheckNumber == t.vertexFormatCheckNumber)
    ensures !MakeDiff(a, t, false).vertexBinding ==>
      (a.vertexBindings == t.vertexBindings || a.vertexBindingCheckNumber == t.vertexBindingCheckNumber)
  {
  }

  // ---------------------------------------------------------------------------
  // apply

  /** The GL capabilities apply switches on and off. */
  datatype Capability = BlendCap | CullFaceCap | DepthTestCap | StencilTestCap
    | PolygonOffsetFillCap | PolygonOffsetLineCap | PolygonOffsetPointCap | ScissorTestCap

  /** The device commands apply issues. */
  datatype Command =
    | UseProgram(shader: Handle)
    | Enable(cap: Capability)
    | Disable(cap: Capability)
    | BlendFuncSeparate(srcRGB: nat, dstRGB: nat, srcAlpha: nat, dstAlpha: nat)
    | BlendColor(color: Color4)
    | BlendEquationSeparate(equationRGB: nat, equationAlpha: nat)
    | ColorMask(red: bool, green: bool, blue: bool, alpha: bool)
    | CullFaceCommand(mode: CullFaceMode)
    | DepthMask(writing: bool)
    | DepthFunc(compare: nat)
    | LineWidth(width: real)
    | StencilFunc(compare: nat, referenceValue: int, mask: nat)
    | StencilOp(fail: StencilAction, depthFail: StencilAction, depthPass: StencilAction)
    | PolygonModeCommand(polygonMode: nat)
    | PolygonOffsetCommand(factor: real, units: real)
    | BindTextures(textures: seq<Handle>)
    | ViewportCommand(rect: Rect)
    | ScissorCommand(rect: Rect)
    | BindFramebuffer(fbo: Handle)
    | EnableVertexAttribArray(location: nat)
    | DisableVertexAttribArray(location: nat)
    | VertexAttribBinding(location: nat, binding: uint32)
    | VertexAttribFormat(location: nat, numValues: nat, dataType: nat, normalize: bool, offset: nat)
    | VertexAttribIFormat(location: nat, numValues: nat, dataType: nat, offset: nat)
    | VertexBindingDivisor(index: nat, divisor: uint32)
    | BindVertexBuffer(index: nat, buffer: uint32, bufferOffset: uint32, stride: uint32)

  /** The diff bit a command belongs to. */
  function Category(c: Command): DiffBit
  {
    match c
    case UseProgram(_) => ProgramBit
    case Enable(cap) => CapabilityCategory(cap)
    case Disable(cap) => CapabilityCategory(cap)
    case BlendFuncSeparate(_, _, _, _) => BlendFuncBit
    case BlendColor(_) => BlendColorBit
    case BlendEquationSeparate(_, _) => BlendEquationBit
    case ColorMask(_, _, _, _) => ColorBufferBit
    case CullFaceCommand(_) => CullFaceBit
    case DepthMask(_) => DepthBufferBit
    case DepthFunc(_) => DepthBufferBit
    case LineWidth(_) => LineParamBit
    case StencilFunc(_, _, _) => StencilFuncBit
    case StencilOp(_, _, _) => StencilOpBit
    case PolygonModeCommand(_) => PolygonModeBit
    case PolygonOffsetCommand(_, _) => PolygonOffsetBit
    case BindTextures(_) => TextureBindingBit
    case ViewportCommand(_) => ViewportBit
    case ScissorCommand(_) => ScissorBit
    case BindFramebuffer(_) => FboBit
    case EnableVertexAttribArray(_) => VertexFormatBit
    case DisableVertexAttribArray(_) => VertexFormatBit
    case VertexAttribBinding(_, _) => VertexFormatBit
    case VertexAttribFormat(_, _, _, _, _) => VertexFormatBit
    case VertexAttribIFormat(_, _, _, _) => VertexFormatBit
    case VertexBindingDivisor(_, _) => VertexBindingBit
    case BindVertexBuffer(_, _, _, _) => VertexBindingBit
  }

  function CapabilityCategory(cap: Capability): DiffBit
  {
    match cap
    case BlendCap => BlendEnabledBit
    case CullFaceCap => CullFaceBit
    case DepthTestCap => DepthBufferBit
    case StencilTestCap => StencilEnabledBit
    case ScissorTestCap => ScissorBit
    case _ => PolygonOffsetBit
  }

  /** The commands in `log` all belong to flagged bits whose categories are flagged too. */
  predicate OnlyFlagged(log: seq<Command>, diff: StateDiff)
  {
    forall c :: c in log ==> diff.Has(Category(c)) && diff.Has(Category(c).Parent())
  }

  lemma OnlyFlaggedConcat(a: seq<Command>, b: seq<Command>, diff: StateDiff)
    requires OnlyFlagged(a, diff) && OnlyFlagged(b, diff)
    ensures OnlyFlagged(a + b, diff)
  {
  }

  function Switch(on: bool, cap: Capability): Command
  {
    if on then Enable(cap) else Disable(cap)
  }

  /** The valid cull modes (the others make apply throw std::invalid_argument). */
  predicate ValidCullMode(m: CullFaceMode)
  {
    !m.OtherCullMode?
  }

  /** convertStencilAction succeeds on the eight named actions only. */
  predicate ValidStencilAction(x: StencilAction)
  {
    !x.OtherAction?
  }

  predicate ValidStencilActions(s: StencilParameters)
  {
    ValidStencilAction(s.failAction) && ValidStencilAction(s.depthTestFailAction)
    && ValidStencilAction(s.depthTestPassAction)
  }

  /** std::min(width, 1.0f): wider lines are deprecated. */
  function ClampedLineWidth(w: real): (r: real)
    ensures r <= 1.0 && (r == w || r == 1.0)
    ensures w <= 1.0 ==> r == w
  {
    if w <= 1.0 then w else 1.0
  }

  function ProgramCommands(v: PipelineValue, diff: StateDiff): (r: seq<Command>)
    ensures OnlyFlagged(r, diff)
  {
    if diff.Has(ProgramBit) then [UseProgram(v.shader)] else []
  }

  function BlendCommands(v: PipelineValue, diff: StateDiff): (r: seq<Command>)
    ensures OnlyFlagged(r, diff)
    ensures !diff.Has(BlendBit) ==> r == []
  {
    if diff.Has(BlendBit) then
      var b := v.blending;
      var switch := if diff.Has(BlendEnabledBit) then [Switch(b.enabled, BlendCap)] else [];
      var func := if diff.Has(BlendFuncBit) then [BlendFuncSeparate(b.srcRGB, b.dstRGB, b.srcAlpha, b.dstAlpha)] else [];
      var color := if diff.Has(BlendColorBit) then [BlendColor(b.color)] else [];
      var equation := if diff.Has(BlendEquationBit) then [BlendEquationSeparate(b.equationRGB, b.equationAlpha)] else [];
      OnlyFlaggedConcat(switch, func, diff);
      OnlyFlaggedConcat(switch + func, color, diff);
      OnlyFlaggedConcat(switch + func + color, equation, diff);
      switch + func + color + equation
    else []
  }

  function ColorBufferCommands(v: PipelineValue, diff: StateDiff): (r: seq<Command>)
    ensures OnlyFlagged(r, diff)
  {
    if diff.Has(ColorBufferBit) then
      [ColorMask(v.colorBuffer.red, v.colorBuffer.green, v.colorBuffer.blue, v.colorBuffer.alpha)]
    else []
  }

  /** The culling switch, issued before the mode is checked. */
  function CullSwitchCommands(v: PipelineValue, diff: StateDiff): (r: seq<Command>)
    ensures OnlyFlagged(r, diff)
  {
    if diff.Has(CullFaceBit) then [Switch(v.cullFace.enabled, CullFaceCap)] else []
  }

  function CullModeCommands(v: PipelineValue, diff: StateDiff): (r: seq<Command>)
    ensures OnlyFlagged(r, diff)
  {
    if diff.Has(CullFaceBit) then [CullFaceCommand(v.cullFace.mode)] else []
  }

  function DepthCommands(v: PipelineValue, diff: StateDiff): (r: seq<Command>)
    ensures OnlyFlagged(r, diff)
  {
    if diff.Has(DepthBufferBit) then
      [Switch(v.depthBuffer.testEnabled, DepthTestCap), DepthMask(v.depthBuffer.writingEnabled),
       DepthFunc(v.depthBuffer.compare)]
    else []
  }

  function LineCommands(v: PipelineValue, diff: StateDiff): (r: seq<Command>)
    ensures OnlyFlagged(r, diff)
  {
    if diff.Has(LineParamBit) then [LineWidth(ClampedLineWidth(v.line.width))] else []
  }

  /** The stencil switch and function, issued before the actions are converted. */
  function StencilHeadCommands(v: PipelineValue, diff: StateDiff): (r: seq<Command>)
    ensures OnlyFlagged(r, diff)
  {
    if diff.Has(StencilBit) then
      var s := v.stencil;
      (if diff.Has(StencilEnabledBit) then [Switch(s.enabled, StencilTestCap)] else [])
      + (if diff.Has(StencilFuncBit) then [StencilFunc(s.compare, s.referenceValue, s.bitMask)] else [])
    else []
  }

  function StencilOpCommands(v: PipelineValue, diff: StateDiff): (r: seq<Command>)
    ensures OnlyFlagged(r, diff)
  {
    if diff.Has(StencilBit) && diff.Has(StencilOpBit) then
      [StencilOp(v.stencil.failAction, v.stencil.depthTestFailAction, v.stencil.depthTestPassAction)]
    else []
  }

  function PolygonModeCommands(v: PipelineValue, diff: StateDiff): (r: seq<Command>)
    ensures OnlyFlagged(r, diff)
  {
    if diff.Has(PolygonModeBit) then [PolygonModeCommand(v.polygonMode.mode)] else []
  }

  /** Offsetting is switched for filled, line and point polygons together. */
  function PolygonOffsetCommands(v: PipelineValue, diff: StateDiff): (r: seq<Command>)
    ensures OnlyFlagged(r, diff)
  {
    if !diff.Has(PolygonOffsetBit) then []
    else if v.polygonOffset.enabled then
      [Enable(PolygonOffsetFillCap), Enable(PolygonOffsetLineCap), Enable(PolygonOffsetPointCap),
       PolygonOffsetCommand(v.polygonOffset.factor, v.polygonOffset.units)]
    else
      [Disable(PolygonOffsetFillCap), Disable(PolygonOffsetLineCap), Disable(PolygonOffsetPointCap)]
  }

  function PolygonCommands(v: PipelineValue, diff: StateDiff): (r: seq<Command>)
    ensures OnlyFlagged(r, diff)
  {
    OnlyFlaggedConcat(PolygonModeCommands(v, diff), PolygonOffsetCommands(v, diff), diff);
    PolygonModeCommands(v, diff) + PolygonOffsetCommands(v, diff)
  }

  /** Textures and viewport. */
  function TextureViewportCommands(v: PipelineValue, diff: StateDiff): (r: seq<Command>)
    ensures OnlyFlagged(r, diff)
  {
    (if diff.Has(TextureBindingBit) then [BindTextures(v.boundTextures)] else [])
    + (if diff.Has(ViewportBit) then [ViewportCommand(v.viewport)] else [])
  }

  /** Scissor test and framebuffer (the null FBO binds the default framebuffer). */
  function ScissorFboCommands(v: PipelineValue, diff: StateDiff): (r: seq<Command>)
    ensures OnlyFlagged(r, diff)
  {
    var scissor :=
      if !diff.Has(ScissorBit) then []
      else if v.scissor.enabled then [ScissorCommand(v.scissor.rect), Enable(ScissorTestCap)]
      else [Disable(ScissorTestCap)];
    var fbo := if diff.Has(FboBit) then [BindFramebuffer(v.fbo)] else [];
    OnlyFlaggedConcat(scissor, fbo, diff);
    scissor + fbo
  }

  /** Textures, viewport, scissor and framebuffer. */
  function BindingCommands(v: PipelineValue, diff: StateDiff): (r: seq<Command>)
    ensures OnlyFlagged(r, diff)
  {
    OnlyFlaggedConcat(TextureViewportCommands(v, diff), ScissorFboCommands(v, diff), diff);
    TextureViewportCommands(v, diff) + ScissorFboCommands(v, diff)
  }

  /** The commands for one attribute location: disabled if empty, else enabled, bound and formatted. */
  function FormatCommands(location: nat, f: (VertexAttribute, uint32)): (r: seq<Command>)
    ensures forall c :: c in r ==> Category(c) == VertexFormatBit
  {
    var attr := f.0;
    if attr.Empty() then [DisableVertexAttribArray(location)]
    else
      [EnableVertexAttribArray(location), VertexAttribBinding(location, f.1),
       if attr.convertToFloat then VertexAttribFormat(location, attr.numValues, attr.dataType, attr.normalize, attr.offset)
       else VertexAttribIFormat(location, attr.numValues, attr.dataType, attr.offset)]
  }

  /** The commands for locations 0 .. |formats| - 1, in order. */
  function VertexFormatCommands(formats: seq<(VertexAttribute, uint32)>): (r: seq<Command>)
    ensures forall c :: c in r ==> Category(c) == VertexFormatBit
  {
    if formats == [] then []
    else VertexFormatCommands(formats[..|formats| - 1]) + FormatCommands(|formats| - 1, formats[|formats| - 1])
  }

  function BindingPointCommands(i: nat, b: VertexBinding): (r: seq<Command>)
    ensures forall c :: c in r ==> Category(c) == VertexBindingBit
  {
    [VertexBindingDivisor(i, b.divisor), BindVertexBuffer(i, b.buffer, b.offset, b.stride)]
  }

  /** The commands for binding points 0 .. |bindings| - 1, in order. */
  function VertexBindingCommands(bindings: seq<VertexBinding>): (r: seq<Command>)
    ensures forall c :: c in r ==> Category(c) == VertexBindingBit
  {
    if bindings == [] then []
    else VertexBindingCommands(bindings[..|bindings| - 1]) + BindingPointCommands(|bindings| - 1, bindings[|bindings| - 1])
  }

  /** The loop over attribute locations in apply. */
  method FormatLoop(formats: seq<(VertexAttribute, uint32)>) returns (log: seq<Command>)
    ensures log == VertexFormatCommands(formats)
  {
    log := [];
    var location: nat := 0;
    while location < |formats|
      invariant location <= |formats|
      invariant log == VertexFormatCommands(formats[..location])
    {
      assert formats[..location + 1][..location] == formats[..location];
      log := log + FormatCommands(location, formats[location]);
      location := location + 1;
    }
    assert formats[..location] == formats;
  }

  /** The loop over binding points in apply. */
  method BindingLoop(bindings: seq<VertexBinding>) returns (log: seq<Command>)
    ensures log == VertexBindingCommands(bindings)
  {
    log := [];
    var i: nat := 0;
    while i < |bindings|
      invariant i <= |bindings|
      invariant log == VertexBindingCommands(bindings[..i])
    {
      assert bindings[..i + 1][..i] == bindings[..i];
      log := log + BindingPointCommands(i, bindings[i]);
      i := i + 1;
    }
    assert bindings[..i] == bindings;
  }

  /** The result of apply: the commands issued, and the exception that ended it, if any. */
  datatype ApplyOutcome = ApplyOutcome(log: seq<Command>, failure: Option<Error>)

  /** What apply issues for the state `v` and the diff `diff`. */
  function ApplyCommands(v: PipelineValue, diff: StateDiff): ApplyOutcome
  {
    var head := ProgramCommands(v, diff) + BlendCommands(v, diff) + ColorBufferCommands(v, diff)
      + CullSwitchCommands(v, diff);
    if diff.Has(CullFaceBit) && !ValidCullMode(v.cullFace.mode) then ApplyOutcome(head, Some(InvalidArgument))
    else
      var middle := head + CullModeCommands(v, diff) + DepthCommands(v, diff) + LineCommands(v, diff)
        + StencilHeadCommands(v, diff);
      if diff.Has(StencilBit) && diff.Has(StencilOpBit) && !ValidStencilActions(v.stencil) then
        ApplyOutcome(middle, Some(InvalidArgument))
      else
        ApplyOutcome(
          middle + StencilOpCommands(v, diff) + PolygonCommands(v, diff) + BindingCommands(v, diff)
          + (if diff.Has(VertexFormatBit) then VertexFormatCommands(v.vertexFormat) else [])
          + (if diff.Has(VertexBindingBit) then VertexBindingCommands(v.vertexBindings) else []),
          None)
  }

  /** apply issues commands only for flagged bits, and a sub-bit's commands only under its category's bit. */
  lemma ApplyIssuesOnlyFlagged(v: PipelineValue, diff: StateDiff)
    ensures OnlyFlagged(ApplyCommands(v, diff).log, diff)
  {
    var head := ProgramCommands(v, diff) + BlendCommands(v, diff) + ColorBufferCommands(v, diff)
      + CullSwitchCommands(v, diff);
    OnlyFlaggedConcat(ProgramCommands(v, diff), BlendCommands(v, diff), diff);
    OnlyFlaggedConcat(ProgramCommands(v, diff) + BlendCommands(v, diff), ColorBufferCommands(v, diff), diff);
    OnlyFlaggedConcat(ProgramCommands(v, diff) + BlendCommands(v, diff) + ColorBufferCommands(v, diff),
      CullSwitchCommands(v, diff), diff);
    var m1 := head + CullModeCommands(v, diff);
    var m2 := m1 + DepthCommands(v, diff);
    var m3 := m2 + LineCommands(v, diff);
    var middle := m3 + StencilHeadCommands(v, diff);
    OnlyFlaggedConcat(head, CullModeCommands(v, diff), diff);
    OnlyFlaggedConcat(m1, DepthCommands(v, diff), diff);
    OnlyFlaggedConcat(m2, LineCommands(v, diff), diff);
    OnlyFlaggedConcat(m3, StencilHeadCommands(v, diff), diff);
    var t1 := middle + StencilOpCommands(v, diff);
    var t2 := t1 + PolygonCommands(v, diff);
    var t3 := t2 + BindingCommands(v, diff);
    OnlyFlaggedConcat(middle, StencilOpCommands(v, diff), diff);
    OnlyFlaggedConcat(t1, PolygonCommands(v, diff), diff);
    OnlyFlaggedConcat(t2, BindingCommands(v, diff), diff);
    var fmt := if diff.Has(VertexFormatBit) then VertexFormatCommands(v.vertexFormat) else [];
    var bnd := if diff.Has(VertexBindingBit) then VertexBindingCommands(v.vertexBindings) else [];
    OnlyFlaggedConcat(t3, fmt, diff);
    OnlyFlaggedConcat(t3 + fmt, bnd, diff);
  }

  /** Every command of `a` also occurs in `b`. */
  predicate IssuedWithin(a: seq<Command>, b: seq<Command>)
  {
    forall c :: c in a ==> c in b
  }

  lemma IssuedWithinConcat(a: seq<Command>, b: seq<Command>)
    ensures IssuedWithin(a, a + b) && IssuedWithin(b, a + b)
  {
  }

  /** When apply runs to the end, each group of commands it builds is part of its log. */
  lemma {:induction false} ApplyLogHoldsEveryGroup(v: PipelineValue, diff: StateDiff)
    requires ApplyCommands(v, diff).failure == None
    ensures var log := ApplyCommands(v, diff).log;
      && IssuedWithin(ProgramCommands(v, diff), log) && IssuedWithin(BlendCommands(v, diff), log)
      && IssuedWithin(ColorBufferCommands(v, diff), log) && IssuedWithin(CullSwitchCommands(v, diff), log)
      && IssuedWithin(CullModeCommands(v, diff), log) && IssuedWithin(DepthCommands(v, diff), log)
      && IssuedWithin(LineCommands(v, diff), log) && IssuedWithin(StencilHeadCommands(v, diff), log)
      && IssuedWithin(StencilOpCommands(v, diff), log) && IssuedWithin(PolygonModeCommands(v, diff), log)
      && IssuedWithin(PolygonOffsetCommands(v, diff), log) && IssuedWithin(TextureViewportCommands(v, diff), log)
      && IssuedWithin(ScissorFboCommands(v, diff), log)
      && (diff.Has(VertexFormatBit) ==> IssuedWithin(VertexFormatCommands(v.vertexFormat), log))
      && (diff.Has(VertexBindingBit) ==> IssuedWithin(VertexBindingCommands(v.vertexBindings), log))
  {
    var p0 := ProgramCommands(v, diff);
    var p1 := p0 + BlendCommands(v, diff);
    var p2 := p1 + ColorBufferCommands(v, diff);
    var p3 := p2 + CullSwitchCommands(v, diff);
    var p4 := p3 + CullModeCommands(v, diff);
    var p5 := p4 + DepthCommands(v, diff);
    var p6 := p5 + LineCommands(v, diff);
    var p7 := p6 + StencilHeadCommands(v, diff);
    var p8 := p7 + StencilOpCommands(v, diff);
    var p9 := p8 + PolygonCommands(v, diff);
    var p10 := p9 + BindingCommands(v, diff);
    var fmt := if diff.Has(VertexFormatBit) then VertexFormatCommands(v.vertexFormat) else [];
    var bnd := if diff.Has(VertexBindingBit) then VertexBindingCommands(v.vertexBindings) else [];
    var p11 := p10 + fmt;
    var log := p11 + bnd;
    assert log == ApplyCommands(v, diff).log;
    IssuedWithinConcat(p11, bnd);
    IssuedWithinConcat(p10, fmt);
    IssuedWithinConcat(p9, BindingCommands(v, diff));
    IssuedWithinConcat(p8, PolygonCommands(v, diff));
    IssuedWithinConcat(p7, StencilOpCommands(v, diff));
    IssuedWithinConcat(p6, StencilHeadCommands(v, diff));
    IssuedWithinConcat(p5, LineCommands(v, diff));
    IssuedWithinConcat(p4, DepthCommands(v, diff));
    IssuedWithinConcat(p3, CullModeCommands(v, diff));
    IssuedWithinConcat(p2, CullSwitchCommands(v, diff));
    IssuedWithinConcat(p1, ColorBufferCommands(v, diff));
    IssuedWithinConcat(p0, BlendCommands(v, diff));
    IssuedWithinConcat(PolygonModeCommands(v, diff), PolygonOffsetCommands(v, diff));
    IssuedWithinConcat(TextureViewportCommands(v, diff), ScissorFboCommands(v, diff));
  }

  /**
   * The converse of ApplyIssuesOnlyFlagged for the shader, blending, colour
   * mask and culling: when apply runs to the end, each flagged one issues
   * its commands with the values of `v`, the state being applied.
   */
  lemma ApplyIssuesFlaggedHead(v: PipelineValue, diff: StateDiff)
    requires ApplyCommands(v, diff).failure == None
    ensures var log := ApplyCommands(v, diff).log;
      && (diff.Has(ProgramBit) ==> UseProgram(v.shader) in log)
      && (diff.Has(BlendBit) && diff.Has(BlendEnabledBit) ==> Switch(v.blending.enabled, BlendCap) in log)
      && (diff.Has(BlendBit) && diff.Has(BlendFuncBit) ==>
            BlendFuncSeparate(v.blending.srcRGB, v.blending.dstRGB, v.blending.srcAlpha, v.blending.dstAlpha) in log)
      && (diff.Has(BlendBit) && diff.Has(BlendColorBit) ==> BlendColor(v.blending.color) in log)
      && (diff.Has(BlendBit) && diff.Has(BlendEquationBit) ==>
            BlendEquationSeparate(v.blending.equationRGB, v.blending.equationAlpha) in log)
      && (diff.Has(ColorBufferBit) ==>
            ColorMask(v.colorBuffer.red, v.colorBuffer.green, v.colorBuffer.blue, v.colorBuffer.alpha) in log)
      && (diff.Has(CullFaceBit) ==>
            Switch(v.cullFace.enabled, CullFaceCap) in log && CullFaceCommand(v.cullFace.mode) in log)
  {
    ApplyLogHoldsEveryGroup(v, diff);
  }

  /** The same for depth, line width and stencil. */
  lemma ApplyIssuesFlaggedMiddle(v: PipelineValue, diff: StateDiff)
    requires ApplyCommands(v, diff).failure == None
    ensures var log := ApplyCommands(v, diff).log;
      && (diff.Has(DepthBufferBit) ==>
            Switch(v.depthBuffer.testEnabled, DepthTestCap) in log && DepthMask(v.depthBuffer.writingEnabled) in log
            && DepthFunc(v.depthBuffer.compare) in log)
      && (diff.Has(LineParamBit) ==> LineWidth(ClampedLineWidth(v.line.width)) in log)
      && (diff.Has(StencilBit) && diff.Has(StencilEnabledBit) ==> Switch(v.stencil.enabled, StencilTestCap) in log)
      && (diff.Has(StencilBit) && diff.Has(StencilFuncBit) ==>
            StencilFunc(v.stencil.compare, v.stencil.referenceValue, v.stencil.bitMask) in log)
      && (diff.Has(StencilBit) && diff.Has(StencilOpBit) ==>
            StencilOp(v.stencil.failAction, v.stencil.depthTestFailAction, v.stencil.depthTestPassAction) in log)
  {
    ApplyLogHoldsEveryGroup(v, diff);
  }

  /** The same for polygons, textures, viewport, scissor, framebuffer and the vertex formats and bindings. */
  lemma ApplyIssuesFlaggedTail(v: PipelineValue, diff: StateDiff)
    requires ApplyCommands(v, diff).failure == None
    ensures var log := ApplyCommands(v, diff).log;
      && (diff.Has(PolygonModeBit) ==> PolygonModeCommand(v.polygonMode.mode) in log)
      && (diff.Has(PolygonOffsetBit) ==>
            Switch(v.polygonOffset.enabled, PolygonOffsetFillCap) in log
            && (v.polygonOffset.enabled ==> PolygonOffsetCommand(v.polygonOffset.factor, v.polygonOffset.units) in log))
      && (diff.Has(TextureBindingBit) ==> BindTextures(v.boundTextures) in log)
      && (diff.Has(ViewportBit) ==> ViewportCommand(v.viewport) in log)
      && (diff.Has(ScissorBit) ==>
            Switch(v.scissor.enabled, ScissorTestCap) in log && (v.scissor.enabled ==> ScissorCommand(v.scissor.rect) in log))
      && (diff.Has(FboBit) ==> BindFramebuffer(v.fbo) in log)
      && (diff.Has(VertexFormatBit) ==> IssuedWithin(VertexFormatCommands(v.vertexFormat), log))
      && (diff.Has(VertexBindingBit) ==> IssuedWithin(VertexBindingCommands(v.vertexBindings), log))
  {
    ApplyLogHoldsEveryGroup(v, diff);
    if diff.Has(TextureBindingBit) {
      assert BindTextures(v.boundTextures) in TextureViewportCommands(v, diff);
    }
    if diff.Has(ViewportBit) {
      assert ViewportCommand(v.viewport) in TextureViewportCommands(v, diff);
    }
    if diff.Has(FboBit) {
      assert BindFramebuffer(v.fbo) in ScissorFboCommands(v, diff);
    }
    if diff.Has(ScissorBit) {
      assert Switch(v.scissor.enabled, ScissorTestCap) in ScissorFboCommands(v, diff);
    }
  }

  /**
   * apply fails exactly when a flagged cull face has an invalid mode or
   * flagged stencil actions include an invalid one, and then with
   * std::invalid_argument.
   */
  lemma ApplyFailsIffInvalidEnumerator(v: PipelineValue, diff: StateDiff)
    ensures ApplyCommands(v, diff).failure.Some?
        <==> (diff.Has(CullFaceBit) && !ValidCullMode(v.cullFace.mode))
             || (diff.Has(StencilBit) && diff.Has(StencilOpBit) && !ValidStencilActions(v.stencil))
    ensures ApplyCommands(v, diff).failure.Some? ==> ApplyCommands(v, diff).failure == Some(InvalidArgument)
  {
  }

  /** An empty diff issues nothing. */
  lemma EmptyDiffIssuesNothing(v: PipelineValue)
    ensures ApplyCommands(v, NO_BITS) == ApplyOutcome([], None)
  {
  }

  /**
   * A forced diff of a state whose enumerators are valid succeeds and issues
   * the shader, texture, viewport, framebuffer and clamped line-width commands.
   */
  lemma ForcedApplyIssuesEveryCategory(a: PipelineValue, v: PipelineValue)
    requires ValidCullMode(v.cullFace.mode) && ValidStencilActions(v.stencil)
    ensures ApplyCommands(v, MakeDiff(a, v, true)).failure == None
    ensures UseProgram(v.shader) in ApplyCommands(v, MakeDiff(a, v, true)).log
    ensures BindTextures(v.boundTextures) in ApplyCommands(v, MakeDiff(a, v, true)).log
    ensures ViewportCommand(v.viewport) in ApplyCommands(v, MakeDiff(a, v, true)).log
    ensures BindFramebuffer(v.fbo) in ApplyCommands(v, MakeDiff(a, v, true)).log
    ensures LineWidth(ClampedLineWidth(v.line.width)) in ApplyCommands(v, MakeDiff(a, v, true)).log
    ensures CullFaceCommand(v.cullFace.mode) in ApplyCommands(v, MakeDiff(a, v, true)).log
  {
    var diff := MakeDiff(a, v, true);
    assert diff == ALL_BITS;
    var log := ApplyCommands(v, diff).log;
    assert ProgramCommands(v, diff) == [UseProgram(v.shader)];
    assert LineCommands(v, diff) == [LineWidth(ClampedLineWidth(v.line.width))];
    assert CullModeCommands(v, diff) == [CullFaceCommand(v.cullFace.mode)];
    assert BindingCommands(v, diff)[0] == BindTextures(v.boundTextures);
    assert ViewportCommand(v.viewport) in BindingCommands(v, diff);
    assert BindFramebuffer(v.fbo) in BindingCommands(v, diff);
  }

  // ---------------------------------------------------------------------------
  // The vertex-format reset

  /** The number of locations resetVertexFormats actually changes. */
  function ResetCount(formats: seq<(VertexAttribute, uint32)>, binding: uint32): (n: nat)
    ensures n <= |formats|
  {
    if formats == [] then 0
    else
      var last := formats[|formats| - 1];
      ResetCount(formats[..|formats| - 1], binding)
      + (if last.1 == binding && last != (EMPTY_ATTRIBUTE, binding) then 1 else 0)
  }

  /** `k` increments of a uint32_t counter. */
  function AddWrapped(x: uint32, k: nat): (r: uint32)
    ensures x + k < TWO_32 ==> r == x + k
  {
    (x + k) % TWO_32
  }

  /** One more increment. */
  lemma AddWrappedStep(x: uint32, k: nat)
    ensures Inc32(AddWrapped(x, k)) == AddWrapped(x, k + 1)
  {
    var q := (x + k) / TWO_32;
    var m := (x + k) % TWO_32;
    assert x + k == q * TWO_32 + m;
    if m < UINT32_MAX {
      ModOfSum(q, TWO_32, m + 1);
    } else {
      ModOfSum(q + 1, TWO_32, 0);
    }
  }

  /** A location after resetVertexFormats: emptied (keeping its binding) if bound to `binding`. */
  function ResetFormat(f: (VertexAttribute, uint32), binding: uint32): (VertexAttribute, uint32)
  {
    if f.1 == binding then (EMPTY_ATTRIBUTE, binding) else f
  }

  /**
   * The loop of resetVertexFormats on a copy of the formats: each location
   * bound to `binding` is set to an empty attribute, and `count` is bumped
   * for each one that was not empty already, as setVertexFormat does.
   */
  method ResetMatching(formats: seq<(VertexAttribute, uint32)>, binding: uint32, count: uint32)
    returns (result: seq<(VertexAttribute, uint32)>, newCount: uint32)
    ensures |result| == |formats|
    ensures forall i :: 0 <= i < |formats| ==> result[i] == ResetFormat(formats[i], binding)
    ensures newCount == AddWrapped(count, ResetCount(formats, binding))
  {
    result := formats;
    newCount := count;
    var i: nat := 0;
    while i < |formats|
      invariant i <= |formats| && |result| == |formats|
      invariant forall k :: 0 <= k < i ==> result[k] == ResetFormat(formats[k], binding)
      invariant forall k :: i <= k < |formats| ==> result[k] == formats[k]
      invariant newCount == AddWrapped(count, ResetCount(formats[..i], binding))
    {
      assert formats[..i + 1][..i] == formats[..i];
      if result[i].1 == binding {
        if result[i] != (EMPTY_ATTRIBUTE, binding) {
          AddWrappedStep(count, ResetCount(formats[..i], binding));
          newCount := Inc32(newCount);
        }
        result := result[i := (EMPTY_ATTRIBUTE, binding)];
      }
      i := i + 1;
    }
    assert formats[..i] == formats;
  }

  // ---------------------------------------------------------------------------
  // PipelineState

  class PipelineState {
    var viewport: Rect
    var scissor: ScissorParameters
    var fbo: Handle
    var shader: Handle
    var vertexFormatCheckNumber: uint32
    var vertexFormat: seq<(VertexAttribute, uint32)>
    var vertexBindingCheckNumber: uint32
    var vertexBindings: seq<VertexBinding>
    var blendingCheckNumber: uint32
    var blending: BlendingParameters
    var colorBuffer: ColorBufferParameters
    var cullFace: CullFaceParameters
    var depthBuffer: DepthBufferParameters
    var line: LineParameters
    var polygonMode: PolygonModeParameters
    var polygonOffset: PolygonOffsetParameters
    var stencilCheckNumber: uint32
    var stencil: StencilParameters
    var texturesCheckNumber: uint32
    var boundTextures: seq<Handle>

    /** All fields as one value. */
    function Value(): PipelineValue
      reads this
    {
      PipelineValue(viewport, scissor, fbo, shader, vertexFormatCheckNumber, vertexFormat,
        vertexBindingCheckNumber, vertexBindings, blendingCheckNumber, blending, colorBuffer, cullFace,
        depthBuffer, line, polygonMode, polygonOffset, stencilCheckNumber, stencil, texturesCheckNumber,
        boundTextures)
    }

    ghost predicate Valid()
      reads this
    {
      ValueValid(Value())
    }

    /**
     * A state holding `initial`. (The default member values come from the
     * parameter structs' constructors and are supplied by the caller.)
     */
    constructor(initial: PipelineValue)
      requires ValueValid(initial)
      ensures Valid() && Value() == initial
    {
      viewport := initial.viewport;
      scissor := initial.scissor;
      fbo := initial.fbo;
      shader := initial.shader;
      vertexFormatCheckNumber := initial.vertexFormatCheckNumber;
      vertexFormat := initial.vertexFormat;
      vertexBindingCheckNumber := initial.vertexBindingCheckNumber;
      vertexBindings := initial.vertexBindings;
      blendingCheckNumber := initial.blendingCheckNumber;
      blending := initial.blending;
      colorBuffer := initial.colorBuffer;
      cullFace := initial.cullFace;
      depthBuffer := initial.depthBuffer;
      line := initial.line;
      polygonMode := initial.polygonMode;
      polygonOffset := initial.polygonOffset;
      stencilCheckNumber := initial.stencilCheckNumber;
      stencil := initial.stencil;
      texturesCheckNumber := initial.texturesCheckNumber;
      boundTextures := initial.boundTextures;
    }

    /** Overwrite the viewport-to-blending fields with the matching parts of `v`. */
    method SetLeadingFields(v: PipelineValue)
      modifies this`viewport, this`scissor, this`fbo, this`shader, this`vertexFormatCheckNumber,
        this`vertexFormat, this`vertexBindingCheckNumber, this`vertexBindings, this`blendingCheckNumber,
        this`blending
      ensures viewport == v.viewport && scissor == v.scissor && fbo == v.fbo && shader == v.shader
      ensures vertexFormatCheckNumber == v.vertexFormatCheckNumber && vertexFormat == v.vertexFormat
      ensures vertexBindingCheckNumber == v.vertexBindingCheckNumber && vertexBindings == v.vertexBindings
      ensures blendingCheckNumber == v.blendingCheckNumber && blending == v.blending
    {
      viewport := v.viewport;
      scissor := v.scissor;
      fbo := v.fbo;
      shader := v.shader;
      vertexFormatCheckNumber := v.vertexFormatCheckNumber;
      vertexFormat := v.vertexFormat;
      vertexBindingCheckNumber := v.vertexBindingCheckNumber;
      vertexBindings := v.vertexBindings;
      blendingCheckNumber := v.blendingCheckNumber;
      blending := v.blending;
    }

    /** Overwrite the colour-buffer-to-texture fields with the matching parts of `v`. */
    method SetTrailingFields(v: PipelineValue)
      modifies this`colorBuffer, this`cullFace, this`depthBuffer, this`line, this`polygonMode,
        this`polygonOffset, this`stencilCheckNumber, this`stencil, this`texturesCheckNumber,
        this`boundTextures
      ensures colorBuffer == v.colorBuffer && cullFace == v.cullFace && depthBuffer == v.depthBuffer
      ensures line == v.line && polygonMode == v.polygonMode && polygonOffset == v.polygonOffset
      ensures stencilCheckNumber == v.stencilCheckNumber && stencil == v.stencil
      ensures texturesCheckNumber == v.texturesCheckNumber && boundTextures == v.boundTextures
    {
      colorBuffer := v.colorBuffer;
      cullFace := v.cullFace;
      depthBuffer := v.depthBuffer;
      line := v.line;
      polygonMode := v.polygonMode;
      polygonOffset := v.polygonOffset;
      stencilCheckNumber := v.stencilCheckNumber;
      stencil := v.stencil;
      texturesCheckNumber := v.texturesCheckNumber;
      boundTextures := v.boundTextures;
    }

    /** Take on the value `v`. */
    method Assign(v: PipelineValue)
      requires ValueValid(v)
      modifies this
      ensures Valid() && Value() == v
    {
      SetLeadingFields(v);
      SetTrailingFields(v);
    }

    /** Copy assignment from another state. */
    method CopyFrom(other: PipelineState)
      requires other.Valid()
      modifies this
      ensures Valid() && Value() == old(other.Value())
    {
      Assign(other.Value());
    }

    // --- Plain setters (no check number)

    method SetViewport(vp: Rect)
      modifies this
      ensures Value() == old(Value()).(viewport := vp)
    {
      viewport := vp;
    }

    method SetScissorParameters(p: ScissorParameters)
      modifies this
      ensures Value() == old(Value()).(scissor := p)
    {
      scissor := p;
    }

    method SetFBO(p: Handle)
      modifies this
      ensures Value() == old(Value()).(fbo := p)
    {
      fbo := p;
    }

    method SetShader(s: Handle)
      modifies this
      ensures Value() == old(Value()).(shader := s)
    {
      shader := s;
    }

    method SetColorBufferParameters(p: ColorBufferParameters)
      modifies this
      ensures Value() == old(Value()).(colorBuffer := p)
    {
      colorBuffer := p;
    }

    method SetCullFaceParameters(p: CullFaceParameters)
      modifies this
      ensures Value() == old(Value()).(cullFace := p)
    {
      cullFace := p;
    }

    method SetDepthBufferParameters(p: DepthBufferParameters)
      modifies this
      ensures Value() == old(Value()).(depthBuffer := p)
    {
      depthBuffer := p;
    }

    method SetLineParameters(p: LineParameters)
      modifies this
      ensures Value() == old(Value()).(line := p)
    {
      line := p;
    }

    method SetPolygonModeParameters(p: PolygonModeParameters)
      modifies this
      ensures Value() == old(Value()).(polygonMode := p)
    {
      polygonMode := p;
    }

    method SetPolygonOffsetParameters(p: PolygonOffsetParameters)
      modifies this
      ensures Value() == old(Value()).(polygonOffset := p)
    {
      polygonOffset := p;
    }

    // --- Setters with a check number

    /** setBlendingParameters: always counts as a change. */
    method SetBlendingParameters(p: BlendingParameters)
      modifies this
      ensures Value() == old(Value()).(blending := p, blendingCheckNumber := Inc32(old(blendingCheckNumber)))
    {
      blendingCheckNumber := Inc32(blendingCheckNumber);
      blending := p;
    }

    /** updateBlendingParameters: adopt the other state's blending; afterwards it no longer counts as changed. */
    method UpdateBlendingParameters(other: PipelineState)
      modifies this
      ensures Value() == old(Value()).(blending := old(other.blending), blendingCheckNumber := old(other.blendingCheckNumber))
      ensures !BlendingChanged(Value(), other.Value())
    {
      blending := other.blending;
      blendingCheckNumber := other.blendingCheckNumber;
    }

    /**
     * updateBlendingParameters(p, checkNumber): adopt a blending value and
     * check number given by the caller; blending then counts as unchanged
     * against every state carrying that check number.
     */
    method UpdateBlendingParametersTo(p: BlendingParameters, checkNumber: uint32)
      modifies this
      ensures Value() == old(Value()).(blending := p, blendingCheckNumber := checkNumber)
      ensures forall w: PipelineValue :: w.blendingCheckNumber == checkNumber ==> !BlendingChanged(Value(), w)
    {
      blending := p;
      blendingCheckNumber := checkNumber;
    }

    /** setStencilParameters: counts as a change only if the value really differs. */
    method SetStencilParameters(p: StencilParameters)
      modifies this
      ensures old(stencil) != p ==> Value() == old(Value()).(stencil := p, stencilCheckNumber := Inc32(old(stencilCheckNumber)))
      ensures old(stencil) == p ==> Value() == old(Value())
    {
      if stencil != p {
        stencilCheckNumber := Inc32(stencilCheckNumber);
      }
      stencil := p;
    }

    /** updateStencilParameters: adopt the other state's stencil; afterwards it no longer counts as changed. */
    method UpdateStencilParameters(other: PipelineState)
      modifies this
      ensures Value() == old(Value()).(stencil := old(other.stencil), stencilCheckNumber := old(other.stencilCheckNumber))
      ensures !StencilChanged(Value(), other.Value())
    {
      stencil := other.stencil;
      stencilCheckNumber := other.stencilCheckNumber;
    }

    /**
     * updateStencilParameters(p, checkNumber): adopt a stencil value and
     * check number given by the caller; the stencil then counts as unchanged
     * against every state carrying that check number.
     */
    method UpdateStencilParametersTo(p: StencilParameters, checkNumber: uint32)
      modifies this
      ensures Value() == old(Value()).(stencil := p, stencilCheckNumber := checkNumber)
      ensures forall w: PipelineValue :: w.stencilCheckNumber == checkNumber ==> !StencilChanged(Value(), w)
    {
      stencil := p;
      stencilCheckNumber := checkNumber;
    }

    /**
     * setTexture: the check number is bumped before the bounds check, so a
     * unit beyond MAX_TEXTURES (std::out_of_range) still counts as a change.
     */
    method SetTexture(unit: nat, texture: Handle) returns (r: Result<()>)
      requires Valid()
      modifies this
      ensures Valid()
      ensures unit < MAX_TEXTURES ==> r.Ok? && Value() == old(Value()).(
        boundTextures := old(boundTextures)[unit := texture], texturesCheckNumber := Inc32(old(texturesCheckNumber)))
      ensures unit >= MAX_TEXTURES ==> r == Err(OutOfRange) && Value() == old(Value()).(
        texturesCheckNumber := Inc32(old(texturesCheckNumber)))
    {
      texturesCheckNumber := Inc32(texturesCheckNumber);
      if unit >= MAX_TEXTURES {
        return Err(OutOfRange);
      }
      boundTextures := boundTextures[unit := texture];
      r := Ok(());
    }

    /** getTexture: std::out_of_range beyond MAX_TEXTURES. */
    function GetTexture(unit: nat): (r: Result<Handle>)
      reads this
      requires Valid()
      ensures r.Ok? <==> unit < MAX_TEXTURES
      ensures r.Ok? ==> r.value == boundTextures[unit]
    {
      if unit < MAX_TEXTURES then Ok(boundTextures[unit]) else Err(OutOfRange)
    }

    /** updateTextures: adopt the other state's textures; afterwards they no longer count as changed. */
    method UpdateTextures(other: PipelineState)
      modifies this
      ensures Value() == old(Value()).(boundTextures := old(other.boundTextures), texturesCheckNumber := old(other.texturesCheckNumber))
      ensures !TexturesChanged(Value(), other.Value())
    {
      boundTextures := other.boundTextures;
      texturesCheckNumber := other.texturesCheckNumber;
    }

    /**
     * setVertexFormat: store (attr, binding) at `location`, counting a change
     * only if the pair differs; std::out_of_range beyond MAX_VERTEXATTRIBS.
     */
    method SetVertexFormat(location: nat, attr: VertexAttribute, binding: uint32) returns (r: Result<()>)
      requires Valid()
      modifies this
      ensures Valid()
      ensures location >= MAX_VERTEXATTRIBS ==> r == Err(OutOfRange) && Value() == old(Value())
      ensures location < MAX_VERTEXATTRIBS ==> r.Ok? && Value() == old(Value()).(
        vertexFormat := old(vertexFormat)[location := (attr, binding)],
        vertexFormatCheckNumber :=
          if old(vertexFormat)[location] != (attr, binding) then Inc32(old(vertexFormatCheckNumber))
          else old(vertexFormatCheckNumber))
    {
      if location >= MAX_VERTEXATTRIBS {
        return Err(OutOfRange);
      }
      if vertexFormat[location] != (attr, binding) {
        vertexFormatCheckNumber := Inc32(vertexFormatCheckNumber);
      }
      vertexFormat := vertexFormat[location := (attr, binding)];
      r := Ok(());
    }

    /**
     * resetVertexFormats: every location bound to `binding` gets an empty
     * attribute (still bound to `binding`); the others are left alone. The
     * check number counts the locations that actually changed.
     */
    method ResetVertexFormats(binding: uint32)
      requires Valid()
      modifies this
      ensures Valid()
      ensures forall i :: 0 <= i < MAX_VERTEXATTRIBS ==> vertexFormat[i] == ResetFormat(old(vertexFormat)[i], binding)
      ensures Value() == old(Value()).(vertexFormat := vertexFormat,
        vertexFormatCheckNumber := AddWrapped(old(vertexFormatCheckNumber), ResetCount(old(vertexFormat), binding)))
    {
      var formats, count := ResetMatching(vertexFormat, binding, vertexFormatCheckNumber);
      vertexFormat, vertexFormatCheckNumber := formats, count;
    }

    /** getVertexFormat: std::out_of_range beyond MAX_VERTEXATTRIBS. */
    function GetVertexFormat(location: nat): (r: Result<(VertexAttribute, uint32)>)
      reads this
      requires Valid()
      ensures r.Ok? <==> location < MAX_VERTEXATTRIBS
      ensures r.Ok? ==> r.value == vertexFormat[location]
    {
      if location < MAX_VERTEXATTRIBS then Ok(vertexFormat[location]) else Err(OutOfRange)
    }

    /** updateVertexFormat: adopt the other state's formats; afterwards they no longer count as changed. */
    method UpdateVertexFormat(other: PipelineState)
      modifies this
      ensures Value() == old(Value()).(vertexFormat := old(other.vertexFormat), vertexFormatCheckNumber := old(other.vertexFormatCheckNumber))
      ensures !VertexFormatChanged(Value(), other.Value())
    {
      vertexFormat := other.vertexFormat;
      vertexFormatCheckNumber := other.vertexFormatCheckNumber;
    }

    /**
     * setVertexBinding: the check number is bumped before the bounds check,
     * so a binding point beyond MAX_VERTEXBINDINGS (std::out_of_range) still
     * counts as a change.
     */
    method SetVertexBinding(binding: nat, bufferId: uint32, offset: uint32, stride: uint32, divisor: uint32) returns (r: Result<()>)
      requires Valid()
      modifies this
      ensures Valid()
      ensures binding < MAX_VERTEXBINDINGS ==> r.Ok? && Value() == old(Value()).(
        vertexBindings := old(vertexBindings)[binding := VertexBinding(bufferId, offset, stride, divisor)],
        vertexBindingCheckNumber := Inc32(old(vertexBindingCheckNumber)))
      ensures binding >= MAX_VERTEXBINDINGS ==> r == Err(OutOfRange) && Value() == old(Value()).(
        vertexBindingCheckNumber := Inc32(old(vertexBindingCheckNumber)))
    {
      vertexBindingCheckNumber := Inc32(vertexBindingCheckNumber);
      if binding >= MAX_VERTEXBINDINGS {
        return Err(OutOfRange);
      }
      vertexBindings := vertexBindings[binding := VertexBinding(bufferId, offset, stride, divisor)];
      r := Ok(());
    }

    /** updateVertexBinding: adopt the other state's bindings; afterwards they no longer count as changed. */
    method UpdateVertexBinding(other: PipelineState)
      modifies this
      ensures Value() == old(Value()).(vertexBindings := old(other.vertexBindings), vertexBindingCheckNumber := old(other.vertexBindingCheckNumber))
      ensures !VertexBindingChanged(Value(), other.Value())
    {
      vertexBindings := other.vertexBindings;
      vertexBindingCheckNumber := other.vertexBindingCheckNumber;
    }

    /**
     * apply: send the commands for the flagged categories, in the source's
     * order, looping over the attribute locations and binding points. A
     * std::invalid_argument ends it part-way.
     */
    method Apply(diff: StateDiff) returns (log: seq<Command>, failure: Option<Error>)
      requires Valid()
      ensures ApplyOutcome(log, failure) == ApplyCommands(Value(), diff)
    {
      var v := Value();
      log := ProgramCommands(v, diff) + BlendCommands(v, diff) + ColorBufferCommands(v, diff)
        + CullSwitchCommands(v, diff);
      if diff.Has(CullFaceBit) && !ValidCullMode(cullFace.mode) {
        return log, Some(InvalidArgument);
      }
      log := log + CullModeCommands(v, diff) + DepthCommands(v, diff) + LineCommands(v, diff)
        + StencilHeadCommands(v, diff);
      if diff.Has(StencilBit) && diff.Has(StencilOpBit) && !ValidStencilActions(stencil) {
        return log, Some(InvalidArgument);
      }
      log := log + StencilOpCommands(v, diff) + PolygonCommands(v, diff) + BindingCommands(v, diff);
      var formatLog: seq<Command> := [];
      if diff.Has(VertexFormatBit) {
        formatLog := FormatLoop(vertexFormat);
      }
      var bindingLog: seq<Command> := [];
      if diff.Has(VertexBindingBit) {
        bindingLog := BindingLoop(vertexBindings);
      }
      log := log + formatLog + bindingLog;
      failure := None;
    }
  }
}
