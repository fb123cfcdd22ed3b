/**
 The block's forward pass: the assembled stages applied one after another.
 Tensors are not modelled; a stage's effect is a caller-supplied `apply`, and
 one concrete instance tracks tensor shapes only.
 */
module BlockForward {
  import opened Wrappers
  import opened Conv2dBlock
  import opened Sequential

  /** Running a one-stage list is applying that stage. */
  lemma ForwardSingle<T>(st: Stage, apply: (Stage, T) -> T, x: T)
    ensures Forward([st], apply, x) == apply(st, x)
  {
  }

  /** Running an optional stage list applies the stage exactly when it is there. */
  lemma ForwardOptional<T>(stages: seq<Stage>, apply: (Stage, T) -> T, x: T)
    requires |stages| <= 1
    ensures Forward(stages, apply, x) == if |stages| == 1 then apply(stages[0], x) else x
  {
  }

  /**
   The forward pass pads (when padding is configured), convolves, normalizes
   (when normalization is configured) and activates (when an activation is
   configured), in that order.
   */
  lemma ForwardBuild<T>(cfg: BlockConfig, samePadding: PaddingRule, apply: (Stage, T) -> T, x: T)
    ensures
      var padded := if cfg.pad.Some? then apply(Pad(cfg.pad.value, samePadding(cfg.kernel, PadDilation(cfg))), x) else x;
      var convolved := apply(ConvStage(cfg), padded);
      var normed := if cfg.norm.Some? then apply(Norm(cfg.norm.value, cfg.outChNo, cfg.normKwargs), convolved) else convolved;
      var activated := if cfg.activ.Some? then apply(Activ(cfg.activ.value, cfg.activKwargs), normed) else normed;
      Forward(Build(cfg, samePadding), apply, x) == activated
  {
    var p := PadStages(cfg, samePadding);
    var c := [ConvStage(cfg)];
    var n := NormStages(cfg);
    var a := ActivStages(cfg);
    assert Build(cfg, samePadding) == ((p + c) + n) + a;
    ForwardConcat(p + c + n, a, apply, x);
    ForwardConcat(p + c, n, apply, x);
    ForwardConcat(p, c, apply, x);
    ForwardOptional(p, apply, x);
    ForwardSingle(ConvStage(cfg), apply, Forward(p, apply, x));
    ForwardOptional(n, apply, Forward(p + c, apply, x));
    ForwardOptional(a, apply, Forward(p + c + n, apply, x));
  }

  /** The shape of a 4-dimensional tensor: batch, channels, height, width. */
  datatype Shape = Shape(batch: int, channels: int, height: int, width: int)

  /** Why a stage cannot accept a tensor. */
  datatype ShapeError =
    | InvalidConv(kernel: int, dilation: int)
    | ChannelMismatch(expected: int, actual: int)
    | EmptyOutput(height: int, width: int)

  /** A shape, or the error the first incompatible stage raised. */
  type Shaped = Result<Shape, ShapeError>

  /** How much a stride-1 convolution shrinks each spatial dimension: dilation * (kernel - 1). */
  function Span(kernel: int, dilation: int): int {
    dilation * (kernel - 1)
  }

  /**
   The shape a stage produces: padding grows height and width by twice the
   amount; the convolution (stride 1, no padding of its own) rejects a kernel
   size or dilation below 1, needs its input channel count and shrinks each
   spatial dimension by its span, failing when nothing is left; normalization needs its channel count; the activation
   keeps the shape. An error passes through unchanged.
   */
  function StageShape(st: Stage, x: Shaped): Shaped {
    match x
    case Err(_) => x
    case Ok(s) =>
      match st
      case Pad(_, p) => Ok(s.(height := s.height + 2 * p, width := s.width + 2 * p))
      case Conv(i, o, k, _, d, _) =>
        var h := s.height - Span(k, d.GetOr(1));
        var w := s.width - Span(k, d.GetOr(1));
        if k < 1 || d.GetOr(1) < 1 then Err(InvalidConv(k, d.GetOr(1)))
        else if s.channels != i then Err(ChannelMismatch(i, s.channels))
        else if h < 1 || w < 1 then Err(EmptyOutput(h, w))
        else Ok(Shape(s.batch, o, h, w))
      case Norm(_, c, _) => if s.channels != c then Err(ChannelMismatch(c, s.channels)) else x
      case Activ(_, _) => x
  }

  /**
   The block's output shape in closed form: it fails only on a kernel size or
   dilation below 1, a wrong input channel count or an input too small for
   the kernel; otherwise it has the
   output channel count and the padded-then-convolved height and width.
   The normalization stage never rejects what the convolution produced.
   */
  lemma BlockShape(cfg: BlockConfig, samePadding: PaddingRule, s: Shape)
    ensures
      var p := if cfg.pad.Some? then samePadding(cfg.kernel, PadDilation(cfg)) else 0;
      var h := s.height + 2 * p - Span(cfg.kernel, PadDilation(cfg));
      var w := s.width + 2 * p - Span(cfg.kernel, PadDilation(cfg));
      Forward(Build(cfg, samePadding), StageShape, Ok(s)) ==
        if cfg.kernel < 1 || PadDilation(cfg) < 1 then Err(InvalidConv(cfg.kernel, PadDilation(cfg)))
        else if s.channels != cfg.inChNo then Err(ChannelMismatch(cfg.inChNo, s.channels))
        else if h < 1 || w < 1 then Err(EmptyOutput(h, w))
        else Ok(Shape(s.batch, cfg.outChNo, h, w))
  {
    ForwardBuild(cfg, samePadding, StageShape, Ok(s));
  }

  /**
   When the padding rule gives exactly half the convolution's span, a padded
   block with a valid kernel size and dilation keeps the height and width of
   any non-empty input with the right channel count, and only the channel
   count changes; with an invalid kernel size or dilation it fails.
   */
  lemma SamePaddingKeepsSize(cfg: BlockConfig, samePadding: PaddingRule, s: Shape)
    requires cfg.pad.Some?
    requires 2 * samePadding(cfg.kernel, PadDilation(cfg)) == Span(cfg.kernel, PadDilation(cfg))
    requires s.channels == cfg.inChNo && s.height >= 1 && s.width >= 1
    ensures Forward(Build(cfg, samePadding), StageShape, Ok(s)) ==
              if cfg.kernel >= 1 && PadDilation(cfg) >= 1 then Ok(Shape(s.batch, cfg.outChNo, s.height, s.width))
              else Err(InvalidConv(cfg.kernel, PadDilation(cfg)))
  {
    BlockShape(cfg, samePadding, s);
    var p := samePadding(cfg.kernel, PadDilation(cfg));
    var span := Span(cfg.kernel, PadDilation(cfg));
    assert s.height + 2 * p - span == s.height && s.width + 2 * p - span == s.width;
  }
}
