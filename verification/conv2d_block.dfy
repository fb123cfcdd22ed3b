/**
 A model of the stage assembly done by the constructor of `Conv2dBlock`:
 from a block configuration it builds the ordered list of layers
 pad -> conv -> norm -> activ, omitting every optional stage whose kind is
 `None`, and resolves the convolution's bias from the normalization choice.

 Layer classes are represented by their already-resolved identity
 (`LayerKind`); the padding amount is computed by a caller-supplied rule
 `samePadding(kernel, dilation)` whose definition is not part of this model.
 */
module Conv2dBlock {
  import opened Wrappers

  /** A layer class found by name resolution: the package searched and the class name. */
  datatype LayerKind = LayerKind(package: string, name: string)

  /**
   The package every layer name is looked up in. The constructor reads a
   `padPack`, `normPack` or `activPack` keyword but also forwards it to the
   convolution, which rejects it, so every block that can be built resolves
   its layers in this package.
   */
  const TorchNn: string := "torch.nn"

  /** The constructor's default padding layer. */
  const ReflectionPad2d: LayerKind := LayerKind(TorchNn, "ReflectionPad2d")

  /** The constructor's default activation layer. */
  const ReLU: LayerKind := LayerKind(TorchNn, "ReLU")

  /** A keyword-argument value handed through to a normalization or activation layer. */
  datatype Arg = IntArg(i: int) | RealArg(r: real) | BoolArg(b: bool) | StrArg(s: string)

  /** A keyword-argument dictionary (`normKwargs`, `activKwargs`). */
  type Kwargs = map<string, Arg>

  /**
   The two keyword arguments of the convolution the block itself reads:
   `bias` (`None` when not passed or passed as `None`) and `dilation`
   (`None` when not passed).
   */
  datatype ConvOptions = ConvOptions(bias: Option<bool>, dilation: Option<int>)

  /** The arguments of the block's constructor, with every layer name already resolved. */
  datatype BlockConfig = BlockConfig(
    inChNo: int,
    outChNo: int,
    kernel: int,
    pad: Option<LayerKind>,
    spectral: bool,
    activ: Option<LayerKind>,
    activKwargs: Kwargs,
    norm: Option<LayerKind>,
    normKwargs: Kwargs,
    conv: ConvOptions)

  /** The configuration `Conv2dBlock(inChNo, outChNo, kernel)` gets from its defaults. */
  function DefaultConfig(inChNo: int, outChNo: int, kernel: int): BlockConfig {
    BlockConfig(inChNo, outChNo, kernel,
                Some(ReflectionPad2d), false,
                Some(ReLU), map[],
                None, map[],
                ConvOptions(None, None))
  }

  /** The rule that turns a kernel size and a dilation into a padding amount. */
  type PaddingRule = (int, int) -> int

  /** One constructed layer of the block, described by the arguments it was built with. */
  datatype Stage =
    | Pad(padKind: LayerKind, amount: int)
    | Conv(convIn: int, convOut: int, convKernel: int, bias: bool, dilation: Option<int>, spectral: bool)
    | Norm(normKind: LayerKind, channels: int, normArgs: Kwargs)
    | Activ(activKind: LayerKind, activArgs: Kwargs)

  /** The position class of a stage in the fixed order pad, conv, norm, activ. */
  function Rank(st: Stage): nat {
    match st
    case Pad(_, _) => 0
    case Conv(_, _, _, _, _, _) => 1
    case Norm(_, _, _) => 2
    case Activ(_, _) => 3
  }

  /** Stages appear in strictly increasing rank: the fixed order, each kind at most once. */
  predicate StrictlyOrdered(s: seq<Stage>) {
    forall i, j :: 0 <= i < j < |s| ==> Rank(s[i]) < Rank(s[j])
  }

  /** Some stage of `s` has the given rank. */
  predicate HasRank(s: seq<Stage>, k: nat) {
    exists i :: 0 <= i < |s| && Rank(s[i]) == k
  }

  /** 1 when an optional stage is configured, 0 when it is skipped. */
  function Present(kind: Option<LayerKind>): nat {
    if kind.Some? then 1 else 0
  }

  /** The dilation the padding amount is computed with: the caller's, else 1. */
  function PadDilation(cfg: BlockConfig): int {
    cfg.conv.dilation.GetOr(1)
  }

  /**
   The bias the convolution is built with. A bias the caller gave wins;
   otherwise the bias is on exactly when no normalization layer follows.
   */
  function ResolveBias(requested: Option<bool>, norm: Option<LayerKind>): bool {
    match requested
    case Some(b) => b
    case None => norm.None?
  }

  /** The convolution stage the configuration calls for. */
  function ConvStage(cfg: BlockConfig): Stage {
    Conv(cfg.inChNo, cfg.outChNo, cfg.kernel,
         ResolveBias(cfg.conv.bias, cfg.norm), cfg.conv.dilation, cfg.spectral)
  }

  /**
   The stage `st` is built exactly as the configuration asks: a pad stage of
   the configured kind with the computed amount, the configured convolution,
   a norm stage of the configured kind over the output channels with the
   norm keyword arguments, an activation of the configured kind with its
   keyword arguments.
   */
  predicate Fits(cfg: BlockConfig, samePadding: PaddingRule, st: Stage) {
    match st
    case Pad(k, a) => cfg.pad == Some(k) && a == samePadding(cfg.kernel, PadDilation(cfg))
    case Conv(_, _, _, _, _, _) => st == ConvStage(cfg)
    case Norm(k, c, args) => cfg.norm == Some(k) && c == cfg.outChNo && args == cfg.normKwargs
    case Activ(k, args) => cfg.activ == Some(k) && args == cfg.activKwargs
  }

  /**
   Declarative description of a correctly assembled block: fixed order,
   every stage built as configured, the convolution always present and each
   optional stage present exactly when its kind is configured.
   */
  predicate Assembles(cfg: BlockConfig, samePadding: PaddingRule, s: seq<Stage>) {
    && StrictlyOrdered(s)
    && (forall i :: 0 <= i < |s| ==> Fits(cfg, samePadding, s[i]))
    && (HasRank(s, 0) <==> cfg.pad.Some?)
    && HasRank(s, 1)
    && (HasRank(s, 2) <==> cfg.norm.Some?)
    && (HasRank(s, 3) <==> cfg.activ.Some?)
  }

  /** The pad stage, when a padding kind is configured. */
  function PadStages(cfg: BlockConfig, samePadding: PaddingRule): seq<Stage> {
    match cfg.pad
    case Some(k) => [Pad(k, samePadding(cfg.kernel, PadDilation(cfg)))]
    case None => []
  }

  /** The norm stage, when a normalization kind is configured. */
  function NormStages(cfg: BlockConfig): seq<Stage> {
    match cfg.norm
    case Some(k) => [Norm(k, cfg.outChNo, cfg.normKwargs)]
    case None => []
  }

  /** The activation stage, when an activation kind is configured. */
  function ActivStages(cfg: BlockConfig): seq<Stage> {
    match cfg.activ
    case Some(k) => [Activ(k, cfg.activKwargs)]
    case None => []
  }

  /**
   The layer list the constructor hands to `nn.Sequential`: it is correctly
   assembled and has one stage for the convolution plus one per configured
   optional stage.
   */
  function Build(cfg: BlockConfig, samePadding: PaddingRule): (stages: seq<Stage>)
    ensures Assembles(cfg, samePadding, stages)
    ensures |stages| == 1 + Present(cfg.pad) + Present(cfg.norm) + Present(cfg.activ)
  {
    var p := PadStages(cfg, samePadding);
    var stages := p + [ConvStage(cfg)] + NormStages(cfg) + ActivStages(cfg);
    assert stages[|p|] == ConvStage(cfg);
    assert cfg.norm.Some? ==> Rank(stages[|p| + 1]) == 2;
    assert cfg.activ.Some? ==> Rank(stages[|stages| - 1]) == 3;
    stages
  }
}
