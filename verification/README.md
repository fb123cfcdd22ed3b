# Conv2dBlock stage assembly, in Dafny

This project models the constructor of `Conv2dBlock`, the reusable
convolution block of a contrastive self-supervised vision codebase. From the
block's arguments — input and output channels, kernel size, optional padding,
normalization and activation layer kinds, the spectral flag and the
convolution's `bias` and `dilation` keyword arguments — the constructor builds
an ordered list of layers, pad -> conv -> norm -> activ, leaving out every
optional layer whose kind is `None`, and chooses the convolution's bias: a
bias the caller passed wins; otherwise the bias is on exactly when there is no
normalization layer.

Files and modules:

- `wrappers.dfy` (`Wrappers`): `Option` and `Result`.
- `conv2d_block.dfy` (`Conv2dBlock`): the configuration, the stage
  descriptors, the declarative description `Assembles` of a correctly built
  block, and `Build`, the constructor's layer list.
- `block_properties.dfy` (`BlockProperties`): `Build` is the only list that
  satisfies `Assembles`; the bias policy; stage count and order; the
  arguments each layer is built with; the default block.
- `sequential.dfy` (`Sequential`): `Forward`, the composition that
  `nn.Sequential` performs, and its concatenation law.
- `block_forward.dfy` (`BlockForward`): the block's forward pass as
  pad-then-conv-then-norm-then-activ, and a shape-only instance of it.

Layer classes appear as already-resolved kinds (`LayerKind(package, name)`),
and the padding amount comes from a caller-supplied rule
`samePadding(kernel, dilation)`, because the helper that computes it is not
part of this model. The docstring of the constructor says the default
normalization is `BatchNorm2d`; the code's default is `None`, and the model
follows the code.

## Model

| member | source | states |
|---|---|---|
| Conv2dBlock.Build | core/nn/blocks/conv2d_block.py:50-70 | The layer list is in the fixed order pad, conv, norm, activ with each kind at most once; every layer is built with the configured kind and arguments; the convolution is always there and each optional layer is there exactly when its kind is not `None`; its length is 1 plus the number of configured optional layers. |
| BlockProperties.OnlyBuildAssembles | core/nn/blocks/conv2d_block.py:50-70 | Any list satisfying that description is the constructor's list, so the description determines the block completely. |
| BlockProperties.ExactlyOneConv | core/nn/blocks/conv2d_block.py:56-60 | Every block has exactly one convolution layer. |
| BlockProperties.ConvOnly | core/nn/blocks/conv2d_block.py:52-68 | With padding, normalization and activation all `None` the block is the convolution alone. |
| BlockProperties.BiasOnWithoutNorm | core/nn/blocks/conv2d_block.py:42-44 | Without a `bias` argument (or with `bias=None`) and without normalization, the convolution has a bias. |
| BlockProperties.BiasOffWithNorm | core/nn/blocks/conv2d_block.py:42-44 | Without a `bias` argument (or with `bias=None`) but with a normalization layer, the convolution has no bias. |
| BlockProperties.ExplicitBiasWins | core/nn/blocks/conv2d_block.py:43-60 | A `bias` value the caller passed reaches the convolution unchanged, whatever the normalization. |
| BlockProperties.PadAmount | core/nn/blocks/conv2d_block.py:46-54 | The pad layer has the configured kind and the amount the padding rule gives for the kernel and the caller's dilation, dilation 1 when none was passed. |
| BlockProperties.LayerArguments | core/nn/blocks/conv2d_block.py:56-68 | The convolution gets the channel counts, kernel, dilation and spectral choice; the norm layer gets the output channel count and the norm keyword arguments; the activation gets its keyword arguments. |
| BlockProperties.SpectralOnlyWrapsConv | core/nn/blocks/conv2d_block.py:56-60 | Changing the spectral flag changes neither the number nor the order of layers, nor any layer other than the convolution. |
| BlockProperties.DefaultBlock | core/nn/blocks/conv2d_block.py:9-70 | With every default the block is reflection padding (dilation 1), a biased convolution and a ReLU: three layers. |
| Sequential.ForwardConcat | core/nn/blocks/conv2d_block.py:70-74 | Running two layer lists back to back equals running their concatenation. |
| BlockForward.ForwardBuild | core/nn/blocks/conv2d_block.py:50-74 | The forward pass pads when padding is configured, then convolves, then normalizes when normalization is configured, then activates when an activation is configured. |
| BlockForward.BlockShape | core/nn/blocks/conv2d_block.py:46-74 | The output shape in closed form: an error only for a kernel size or dilation below 1, a wrong input channel count or an input too small for the kernel, otherwise the output channel count with the padded-then-convolved height and width; the norm layer never rejects the convolution's output. |
| BlockForward.SamePaddingKeepsSize | core/nn/blocks/conv2d_block.py:46-60 | When the padding rule gives half of dilation * (kernel - 1), a padded block with kernel size and dilation at least 1 keeps the height and width of a valid input and changes only the channel count; otherwise it fails. |

## Left out

- `ImageTransforms` (core/data/data_augmentation.py): a fixed composition of random image transforms and tensor normalization from an image library; its behaviour is random draws and floating-point image maths, with nothing to state beyond its constants.
- Name resolution (`simple_import`, with the `padPack`, `normPack` and `activPack` packages): each layer kind is given already resolved, so the lookup error for an unknown name is not modelled.
- `same_padding`: core/nn/blocks/utils is not part of this model; the padding amount is an uninterpreted rule passed in as a parameter, and `BlockForward.SamePaddingKeepsSize` takes its exactness as a hypothesis instead of assuming a formula.
- Keyword arguments other than `bias` and `dilation` (stride, groups, the convolution's own padding): an open-ended pass-through to the library, not block logic.
- The `padPack`, `normPack` and `activPack` keys: lines 38-40 read them but never remove them, so lines 58/60 pass them on to `nn.Conv2d`, which has no such parameter and raises a `TypeError`. Every block that can actually be built therefore resolves its layers in `torch.nn`. `Build` does not rule out another package in a `LayerKind`, and it does not model that failure.
- `bias` values other than `True`, `False` and `None`, and an explicit `dilation=None`: the library's own argument handling.
- Tensor values, the convolution and spectral-normalization numerics, and normalization running statistics: floating-point library code.
- BlockForward.StageShape: reports a kernel size or dilation below 1 at the convolution stage, while the library rejects a bad kernel size already at construction; covers stride 1 only and does not model the reflection-padding limit (amount smaller than the input size) or layer-specific rank checks.
