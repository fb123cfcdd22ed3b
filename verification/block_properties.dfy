/** Properties of the stage list assembled by `Conv2dBlock.Build`. */
module BlockProperties {
  import opened Wrappers
  import opened Conv2dBlock

  /** Two stages of the same rank that both fit the configuration are the same stage. */
  lemma FitsDetermined(cfg: BlockConfig, samePadding: PaddingRule, a: Stage, b: Stage)
    requires Fits(cfg, samePadding, a) && Fits(cfg, samePadding, b)
    requires Rank(a) == Rank(b)
    ensures a == b
  {
  }

  /**
   In a strictly ordered list the head has the least rank, and it is the only
   member of that rank.
   */
  lemma HeadIsLeast(s: seq<Stage>, x: Stage)
    requires StrictlyOrdered(s) && |s| > 0 && x in s
    ensures Rank(s[0]) <= Rank(x)
    ensures Rank(x) == Rank(s[0]) ==> x == s[0]
    ensures x != s[0] ==> x in s[1..]
  {
  }

  /** Two strictly ordered stage lists holding the same stages are equal. */
  lemma {:induction false} OrderedWithSameStagesEqual(s: seq<Stage>, t: seq<Stage>)
    requires StrictlyOrdered(s) && StrictlyOrdered(t)
    requires forall x :: x in s <==> x in t
    ensures s == t
    decreases |s|
  {
    if |s| == 0 {
      if |t| > 0 {
        FirstIsMember(t);
        assert false;
      }
    } else if |t| == 0 {
      FirstIsMember(s);
      assert false;
    } else {
      FirstIsMember(s);
      FirstIsMember(t);
      HeadIsLeast(s, t[0]);
      HeadIsLeast(t, s[0]);
      assert s[0] == t[0];
      forall x
        ensures x in s[1..] <==> x in t[1..]
      {
        if x in s[1..] {
          HeadIsLeast(s, x);
          HeadIsLeast(t, x);
        }
        if x in t[1..] {
          HeadIsLeast(t, x);
          HeadIsLeast(s, x);
        }
      }
      OrderedWithSameStagesEqual(s[1..], t[1..]);
      assert s == [s[0]] + s[1..] && t == [t[0]] + t[1..];
    }
  }

  /** The first element of a non-empty list is a member of it. */
  lemma FirstIsMember(s: seq<Stage>)
    requires |s| > 0
    ensures s[0] in s
  {
  }

  /**
   `Build` is the only correct assembly: every stage list that satisfies the
   declarative description of the block is exactly the list `Build` returns.
   */
  lemma OnlyBuildAssembles(cfg: BlockConfig, samePadding: PaddingRule, s: seq<Stage>)
    requires Assembles(cfg, samePadding, s)
    ensures s == Build(cfg, samePadding)
  {
    var b := Build(cfg, samePadding);
    forall x
      ensures x in s <==> x in b
    {
      if x in s {
        var i :| 0 <= i < |s| && s[i] == x;
        var k := Rank(x);
        assert HasRank(b, k);
        var j :| 0 <= j < |b| && Rank(b[j]) == k;
        FitsDetermined(cfg, samePadding, x, b[j]);
      }
      if x in b {
        var i :| 0 <= i < |b| && b[i] == x;
        var k := Rank(x);
        assert HasRank(s, k);
        var j :| 0 <= j < |s| && Rank(s[j]) == k;
        FitsDetermined(cfg, samePadding, x, s[j]);
      }
    }
    OrderedWithSameStagesEqual(s, b);
  }

  /** Exactly one convolution stage, whatever the configuration. */
  lemma ExactlyOneConv(cfg: BlockConfig, samePadding: PaddingRule)
    ensures var b := Build(cfg, samePadding);
            && (exists i :: 0 <= i < |b| && b[i].Conv?)
            && (forall i, j :: 0 <= i < |b| && 0 <= j < |b| && b[i].Conv? && b[j].Conv? ==> i == j)
  {
    var b := Build(cfg, samePadding);
    assert HasRank(b, 1);
    var i :| 0 <= i < |b| && Rank(b[i]) == 1;
    assert b[i].Conv?;
  }

  /** With padding, normalization and activation all skipped the block is the convolution alone. */
  lemma ConvOnly(cfg: BlockConfig, samePadding: PaddingRule)
    requires cfg.pad.None? && cfg.norm.None? && cfg.activ.None?
    ensures Build(cfg, samePadding) == [ConvStage(cfg)]
  {
  }

  /** Without a bias argument and without normalization the convolution has a bias. */
  lemma BiasOnWithoutNorm(cfg: BlockConfig, samePadding: PaddingRule)
    requires cfg.conv.bias.None? && cfg.norm.None?
    ensures forall st :: st in Build(cfg, samePadding) && st.Conv? ==> st.bias
  {
  }

  /** Without a bias argument but with a normalization layer the convolution has no bias. */
  lemma BiasOffWithNorm(cfg: BlockConfig, samePadding: PaddingRule)
    requires cfg.conv.bias.None? && cfg.norm.Some?
    ensures forall st :: st in Build(cfg, samePadding) && st.Conv? ==> !st.bias
  {
  }

  /** A bias the caller gave reaches the convolution unchanged, whatever the normalization. */
  lemma ExplicitBiasWins(cfg: BlockConfig, samePadding: PaddingRule, b: bool)
    requires cfg.conv.bias == Some(b)
    ensures forall st :: st in Build(cfg, samePadding) && st.Conv? ==> st.bias == b
  {
  }

  /**
   The pad stage is built with the amount the padding rule gives for the
   kernel and the caller's dilation, or dilation 1 when none was given.
   */
  lemma PadAmount(cfg: BlockConfig, samePadding: PaddingRule)
    ensures forall st :: st in Build(cfg, samePadding) && st.Pad? ==>
              st.padKind == cfg.pad.value &&
              st.amount == samePadding(cfg.kernel, if cfg.conv.dilation.Some? then cfg.conv.dilation.value else 1)
  {
  }

  /**
   The norm stage is built over the convolution's output channels with the
   norm keyword arguments, and the activation with its own keyword arguments.
   */
  lemma LayerArguments(cfg: BlockConfig, samePadding: PaddingRule)
    ensures forall st :: st in Build(cfg, samePadding) && st.Norm? ==>
              st.normKind == cfg.norm.value && st.channels == cfg.outChNo && st.normArgs == cfg.normKwargs
    ensures forall st :: st in Build(cfg, samePadding) && st.Activ? ==>
              st.activKind == cfg.activ.value && st.activArgs == cfg.activKwargs
    ensures forall st :: st in Build(cfg, samePadding) && st.Conv? ==>
              st.convIn == cfg.inChNo && st.convOut == cfg.outChNo && st.convKernel == cfg.kernel
              && st.dilation == cfg.conv.dilation && st.spectral == cfg.spectral
  {
  }

  /**
   The spectral flag only decides whether the convolution is wrapped: the
   stages, their order and every other stage stay the same.
   */
  lemma SpectralOnlyWrapsConv(cfg: BlockConfig, samePadding: PaddingRule, spectral: bool)
    ensures |Build(cfg.(spectral := spectral), samePadding)| == |Build(cfg, samePadding)|
    ensures forall i :: 0 <= i < |Build(cfg, samePadding)| ==>
              var a := Build(cfg, samePadding)[i];
              var b := Build(cfg.(spectral := spectral), samePadding)[i];
              Rank(a) == Rank(b) && (if a.Conv? then b == a.(spectral := spectral) else b == a)
  {
    var wrapped := cfg.(spectral := spectral);
    var p := PadStages(cfg, samePadding);
    assert PadStages(wrapped, samePadding) == p;
    assert NormStages(wrapped) == NormStages(cfg);
    assert ActivStages(wrapped) == ActivStages(cfg);
    assert ConvStage(cfg).Conv?;
    assert ConvStage(wrapped) == ConvStage(cfg).(spectral := spectral);
    var a := Build(cfg, samePadding);
    var b := Build(wrapped, samePadding);
    forall i | 0 <= i < |a|
      ensures Rank(a[i]) == Rank(b[i]) && (if a[i].Conv? then b[i] == a[i].(spectral := spectral) else b[i] == a[i])
    {
      if i == |p| {
        assert a[i] == ConvStage(cfg);
      } else {
        assert !a[i].Conv?;
      }
    }
  }

  /**
   `Conv2dBlock(inChNo, outChNo, kernel)` with every default is reflection
   padding, a biased convolution with dilation 1 and a ReLU.
   */
  lemma DefaultBlock(inChNo: int, outChNo: int, kernel: int, samePadding: PaddingRule)
    ensures Build(DefaultConfig(inChNo, outChNo, kernel), samePadding) ==
              [ Pad(ReflectionPad2d, samePadding(kernel, 1)),
                Conv(inChNo, outChNo, kernel, true, None, false),
                Activ(ReLU, map[]) ]
  {
  }
}
