/** The integer bookkeeping that plans the residual backbone: which blocks
    each stage holds, with which channel counts, strides, shortcuts and
    dilations, as pure functions, and the properties the planner promises. */
module BackbonePlan {
  import opened Wrappers

  /** The two residual block variants. */
  datatype BlockKind = Basic | Bottleneck

  /** How many times wider a block's output is than its `planes` width. */
  function Expansion(kind: BlockKind): nat
  {
    match kind
    case Basic => 1
    case Bottleneck => 4
  }

  /** The normalisation layer that closes a block's residual branch. */
  datatype NormLayer = Bn2 | Bn3

  /** The layer that zero-initialisation of the residual branch resets. */
  function ZeroInitTarget(kind: BlockKind): NormLayer
  {
    match kind
    case Basic => Bn2
    case Bottleneck => Bn3
  }

  /** A 1x1 convolution followed by normalisation on the shortcut path. */
  datatype Shortcut = Shortcut(inChannels: int, outChannels: int, stride: int)

  /** The constructor arguments of one residual block. */
  datatype BlockSpec = BlockSpec(
    kind: BlockKind,
    inplanes: int,
    planes: int,
    stride: int,
    downsample: Option<Shortcut>,
    groups: int,
    baseWidth: int,
    dilation: int)

  /** What every block of one backbone shares. */
  datatype Settings = Settings(kind: BlockKind, groups: int, baseWidth: int)

  /** The arguments of one stage-building call. */
  datatype Stage = Stage(planes: int, blocks: int, stride: int, dilate: bool)

  /** The running counters the planner keeps between stages. */
  datatype PlanState = PlanState(inplanes: int, dilation: int)

  /** The stride the first block of a stage actually uses. */
  function EffectiveStride(stage: Stage): int
  {
    if stage.dilate then 1 else stage.stride
  }

  /** The dilation in force once a stage has traded (or kept) its stride. */
  function NextDilation(dilation: int, stage: Stage): int
  {
    if stage.dilate then dilation * stage.stride else dilation
  }

  /** Channels a stage produces. */
  function OutChannels(s: Settings, stage: Stage): int
  {
    stage.planes * Expansion(s.kind)
  }

  predicate NeedsDownsample(s: Settings, stage: Stage, inplanes: int)
  {
    EffectiveStride(stage) != 1 || inplanes != OutChannels(s, stage)
  }

  /** The first block of a stage: the incoming channels, the effective stride,
      the shortcut if one is needed, and the dilation from before the stage. */
  function FirstBlock(s: Settings, stage: Stage, before: PlanState): BlockSpec
  {
    var stride := EffectiveStride(stage);
    var downsample :=
      if NeedsDownsample(s, stage, before.inplanes)
      then Some(Shortcut(before.inplanes, OutChannels(s, stage), stride))
      else None;
    BlockSpec(s.kind, before.inplanes, stage.planes, stride, downsample,
              s.groups, s.baseWidth, before.dilation)
  }

  /** Every later block of a stage, built with the block defaults. */
  function LaterBlock(s: Settings, stage: Stage, dilation: int): BlockSpec
  {
    BlockSpec(s.kind, OutChannels(s, stage), stage.planes, 1, None,
              s.groups, s.baseWidth, dilation)
  }

  /** The counters after a stage has been built. */
  function AfterLayer(s: Settings, stage: Stage, before: PlanState): PlanState
  {
    PlanState(OutChannels(s, stage), NextDilation(before.dilation, stage))
  }

  /** A stage always holds its first block, however small `blocks` is. */
  function LayerSize(blocks: int): nat
  {
    if blocks < 1 then 1 else blocks
  }

  /** The block list of a stage once `count` blocks have been appended. */
  function Appended(s: Settings, stage: Stage, before: PlanState, count: nat): seq<BlockSpec>
    requires count >= 1
    decreases count
  {
    if count == 1 then [FirstBlock(s, stage, before)]
    else Appended(s, stage, before, count - 1)
         + [LaterBlock(s, stage, AfterLayer(s, stage, before).dilation)]
  }

  /** The complete block list of a stage. */
  function LayerBlocks(s: Settings, stage: Stage, before: PlanState): seq<BlockSpec>
  {
    Appended(s, stage, before, LayerSize(stage.blocks))
  }

  lemma {:induction false} AppendedShape(s: Settings, stage: Stage, before: PlanState, count: nat)
    requires count >= 1
    ensures |Appended(s, stage, before, count)| == count
    ensures Appended(s, stage, before, count)[0] == FirstBlock(s, stage, before)
    ensures forall i :: 1 <= i < count ==>
      Appended(s, stage, before, count)[i] == LaterBlock(s, stage, AfterLayer(s, stage, before).dilation)
  {
    if count > 1 {
      AppendedShape(s, stage, before, count - 1);
    }
  }

  /** What one stage-building call produces, field by field. */
  lemma LayerShape(s: Settings, stage: Stage, before: PlanState)
    ensures |LayerBlocks(s, stage, before)| == if stage.blocks < 1 then 1 else stage.blocks
    ensures var first := LayerBlocks(s, stage, before)[0];
      && first.kind == s.kind
      && first.inplanes == before.inplanes
      && first.planes == stage.planes
      && first.stride == (if stage.dilate then 1 else stage.stride)
      && first.dilation == before.dilation
      && (first.downsample.Some? <==>
            (first.stride != 1 || before.inplanes != stage.planes * Expansion(s.kind)))
      && (first.downsample.Some? ==>
            first.downsample.value == Shortcut(before.inplanes, stage.planes * Expansion(s.kind), first.stride))
      && first.groups == s.groups
      && first.baseWidth == s.baseWidth
    ensures forall i :: 1 <= i < |LayerBlocks(s, stage, before)| ==>
      LayerBlocks(s, stage, before)[i] ==
        BlockSpec(s.kind, stage.planes * Expansion(s.kind), stage.planes, 1, None,
                  s.groups, s.baseWidth,
                  if stage.dilate then before.dilation * stage.stride else before.dilation)
    ensures AfterLayer(s, stage, before).inplanes == stage.planes * Expansion(s.kind)
    ensures AfterLayer(s, stage, before).dilation ==
      if stage.dilate then before.dilation * stage.stride else before.dilation
  {
    AppendedShape(s, stage, before, LayerSize(stage.blocks));
  }

  /** The counters after running the stages in order. */
  function FinalState(s: Settings, stages: seq<Stage>, start: PlanState): PlanState
    decreases |stages|
  {
    if stages == [] then start
    else FinalState(s, stages[1..], AfterLayer(s, stages[0], start))
  }

  /** The block lists of the stages, in order. */
  function StageLayers(s: Settings, stages: seq<Stage>, start: PlanState): seq<seq<BlockSpec>>
    decreases |stages|
  {
    if stages == [] then []
    else [LayerBlocks(s, stages[0], start)] + StageLayers(s, stages[1..], AfterLayer(s, stages[0], start))
  }

  /** Planning four stages, written out stage by stage. */
  lemma FourStages(s: Settings, stages: seq<Stage>, s0: PlanState, s1: PlanState, s2: PlanState, s3: PlanState)
    requires |stages| == 4
    requires s1 == AfterLayer(s, stages[0], s0)
    requires s2 == AfterLayer(s, stages[1], s1)
    requires s3 == AfterLayer(s, stages[2], s2)
    ensures StageLayers(s, stages, s0) ==
      [LayerBlocks(s, stages[0], s0), LayerBlocks(s, stages[1], s1),
       LayerBlocks(s, stages[2], s2), LayerBlocks(s, stages[3], s3)]
    ensures FinalState(s, stages, s0) == AfterLayer(s, stages[3], s3)
  {
    var t1 := stages[1..];
    var t2 := t1[1..];
    var t3 := t2[1..];
    assert t3[1..] == [];
    assert t1[0] == stages[1] && t2[0] == stages[2] && t3[0] == stages[3];
    assert StageLayers(s, t3, s3) == [LayerBlocks(s, stages[3], s3)];
    assert StageLayers(s, t2, s2) == [LayerBlocks(s, stages[2], s2)] + StageLayers(s, t3, s3);
    assert StageLayers(s, t1, s1) == [LayerBlocks(s, stages[1], s1)] + StageLayers(s, t2, s2);
    assert FinalState(s, t3, s3) == AfterLayer(s, stages[3], s3);
    assert FinalState(s, t1, s1) == FinalState(s, t2, s2) == FinalState(s, t3, s3);
  }

  /** After at least one stage the channel count is the last stage's output. */
  lemma {:induction false} FinalInplanes(s: Settings, stages: seq<Stage>, start: PlanState)
    requires stages != []
    ensures FinalState(s, stages, start).inplanes == stages[|stages| - 1].planes * Expansion(s.kind)
    decreases |stages|
  {
    if |stages| > 1 {
      FinalInplanes(s, stages[1..], AfterLayer(s, stages[0], start));
    }
  }

  /** Stage `k` is planned from the counters the first `k` stages leave. */
  lemma {:induction false} StageLayersAt(s: Settings, stages: seq<Stage>, start: PlanState, k: nat)
    requires k < |stages|
    ensures |StageLayers(s, stages, start)| == |stages|
    ensures StageLayers(s, stages, start)[k] == LayerBlocks(s, stages[k], FinalState(s, stages[..k], start))
    decreases |stages|
  {
    if k == 0 {
      StageLayersLength(s, stages, start);
    } else {
      var next := AfterLayer(s, stages[0], start);
      StageLayersAt(s, stages[1..], next, k - 1);
      assert stages[1..][..k - 1] == stages[..k][1..];
      assert stages[..k][0] == stages[0];
    }
  }

  lemma {:induction false} StageLayersLength(s: Settings, stages: seq<Stage>, start: PlanState)
    ensures |StageLayers(s, stages, start)| == |stages|
    decreases |stages|
  {
    if stages != [] {
      StageLayersLength(s, stages[1..], AfterLayer(s, stages[0], start));
    }
  }

  /** Number of stages that trade their stride for dilation. */
  function DilatingCount(stages: seq<Stage>): nat
  {
    if stages == [] then 0
    else (if stages[0].dilate then 1 else 0) + DilatingCount(stages[1..])
  }

  function Pow2(n: nat): nat
  {
    if n == 0 then 1 else 2 * Pow2(n - 1)
  }

  /** When every dilating stage asks for stride 2, the dilation is doubled
      once per dilating stage. */
  lemma {:induction false} FinalDilationIsPower(s: Settings, stages: seq<Stage>, start: PlanState)
    requires forall i :: 0 <= i < |stages| && stages[i].dilate ==> stages[i].stride == 2
    ensures FinalState(s, stages, start).dilation == start.dilation * Pow2(DilatingCount(stages))
    decreases |stages|
  {
    if stages != [] {
      var next := AfterLayer(s, stages[0], start);
      FinalDilationIsPower(s, stages[1..], next);
      var k := DilatingCount(stages[1..]);
      if stages[0].dilate {
        calc {
          FinalState(s, stages, start).dilation;
          next.dilation * Pow2(k);
          (start.dilation * 2) * Pow2(k);
          start.dilation * (2 * Pow2(k));
          start.dilation * Pow2(DilatingCount(stages));
        }
      }
    }
  }

  /** With positive strides and a positive starting dilation, planning never
      lowers the dilation. */
  lemma {:induction false} DilationNeverDecreases(s: Settings, stages: seq<Stage>, start: PlanState)
    requires start.dilation >= 1
    requires forall i :: 0 <= i < |stages| ==> stages[i].stride >= 1
    ensures FinalState(s, stages, start).dilation >= start.dilation
    decreases |stages|
  {
    if stages != [] {
      var next := AfterLayer(s, stages[0], start);
      assert next.dilation >= start.dilation by {
        if stages[0].dilate {
          assert next.dilation == start.dilation * stages[0].stride;
        }
      }
      DilationNeverDecreases(s, stages[1..], next);
    }
  }

  /** Why construction can fail. */
  datatype BuildError =
    | BadDilationFlags(given: seq<bool>)  // a flag list that is not three long
    | StageCountMissing(index: nat)       // the per-stage count list is too short

  /** An absent flag list means three `false` flags; any other length than
      three is refused. */
  function DilationFlags(given: Option<seq<bool>>): (r: Result<seq<bool>, BuildError>)
    ensures r.Err? <==> given.Some? && |given.value| != 3
    ensures r.Err? ==> r.error == BadDilationFlags(given.value)
    ensures r.Ok? ==> |r.value| == 3
    ensures given.None? ==> r == Ok([false, false, false])
    ensures given.Some? && r.Ok? ==> r.value == given.value
  {
    match given
    case None => Ok([false, false, false])
    case Some(flags) => if |flags| != 3 then Err(BadDilationFlags(flags)) else Ok(flags)
  }

  /** The four stages: widths 64, 128, 256, 512; strides 1, 2, 2, 2; the
      three flags belong to the three stride-2 stages. */
  function Stages(counts: seq<int>, flags: seq<bool>): seq<Stage>
    requires |counts| >= 4 && |flags| == 3
  {
    [Stage(64, counts[0], 1, false),
     Stage(128, counts[1], 2, flags[0]),
     Stage(256, counts[2], 2, flags[1]),
     Stage(512, counts[3], 2, flags[2])]
  }

  /** The whole planned backbone. */
  datatype NetworkPlan = NetworkPlan(
    stemIn: int,
    stemOut: int,
    layers: seq<seq<BlockSpec>>,
    final: PlanState,
    repDim: int,
    zeroed: Option<NormLayer>)

  const StartState := PlanState(64, 1)

  /** The backbone the constructor builds from its arguments, or the error it raises. */
  function PlanNetwork(kind: BlockKind, counts: seq<int>, inChannel: int, zeroInitResidual: bool,
                       groups: int, widthPerGroup: int, replaceStrideWithDilation: Option<seq<bool>>)
    : Result<NetworkPlan, BuildError>
  {
    match DilationFlags(replaceStrideWithDilation)
    case Err(e) => Err(e)
    case Ok(flags) =>
      if |counts| < 4 then Err(StageCountMissing(|counts|))
      else Ok(BuildPlan(kind, counts, inChannel, zeroInitResidual, groups, widthPerGroup, flags))
  }

  /** The backbone built from validated arguments. */
  function BuildPlan(kind: BlockKind, counts: seq<int>, inChannel: int, zeroInitResidual: bool,
                     groups: int, widthPerGroup: int, flags: seq<bool>): NetworkPlan
    requires |counts| >= 4 && |flags| == 3
  {
    var s := Settings(kind, groups, widthPerGroup);
    var stages := Stages(counts, flags);
    NetworkPlan(inChannel, StartState.inplanes,
                StageLayers(s, stages, StartState), FinalState(s, stages, StartState),
                512 * Expansion(kind),
                if zeroInitResidual then Some(ZeroInitTarget(kind)) else None)
  }

  function CountTrue(flags: seq<bool>): nat
  {
    if flags == [] then 0 else (if flags[0] then 1 else 0) + CountTrue(flags[1..])
  }

  /** The stages that trade stride for dilation are exactly the `true` flags. */
  lemma {:induction false} DilatingStagesAreTrueFlags(counts: seq<int>, flags: seq<bool>)
    requires |counts| >= 4 && |flags| == 3
    ensures !Stages(counts, flags)[0].dilate && Stages(counts, flags)[0].stride == 1
    ensures forall i :: 0 <= i < 3 ==>
      Stages(counts, flags)[i + 1].dilate == flags[i] && Stages(counts, flags)[i + 1].stride == 2
    ensures DilatingCount(Stages(counts, flags)) == CountTrue(flags)
  {
    var stages := Stages(counts, flags);
    assert stages[1..][1..][1..][1..] == [];
    assert flags[1..][1..][1..] == [];
    assert DilatingCount(stages[1..][1..][1..]) == CountTrue(flags[1..][1..]);
    assert DilatingCount(stages[1..][1..]) == CountTrue(flags[1..]);
  }

  /** Planning fails exactly on a flag list of the wrong length (reported
      first) or on fewer than four stage counts. */
  lemma PlanNetworkFails(kind: BlockKind, counts: seq<int>, inChannel: int, zeroInitResidual: bool,
                         groups: int, widthPerGroup: int, given: Option<seq<bool>>)
    ensures var r := PlanNetwork(kind, counts, inChannel, zeroInitResidual, groups, widthPerGroup, given);
      && (r.Err? <==> (given.Some? && |given.value| != 3) || |counts| < 4)
      && (given.Some? && |given.value| != 3 ==> r == Err(BadDilationFlags(given.value)))
      && (!(given.Some? && |given.value| != 3) && |counts| < 4 ==> r == Err(StageCountMissing(|counts|)))
  {
  }

  /** The shape of a successfully planned backbone. */
  lemma PlanNetworkShape(kind: BlockKind, counts: seq<int>, inChannel: int, zeroInitResidual: bool,
                         groups: int, widthPerGroup: int, given: Option<seq<bool>>)
    requires PlanNetwork(kind, counts, inChannel, zeroInitResidual, groups, widthPerGroup, given).Ok?
    ensures var p := PlanNetwork(kind, counts, inChannel, zeroInitResidual, groups, widthPerGroup, given).value;
      && p.stemIn == inChannel && p.stemOut == 64
      && |p.layers| == 4
      && (forall k :: 0 <= k < 4 ==> |p.layers[k]| == LayerSize(counts[k]))
      && p.layers[0][0].inplanes == 64
      && p.layers[1][0].inplanes == 64 * Expansion(kind)
      && p.layers[2][0].inplanes == 128 * Expansion(kind)
      && p.layers[3][0].inplanes == 256 * Expansion(kind)
      && p.final.inplanes == p.repDim == 512 * Expansion(kind)
      && p.final.dilation == Pow2(CountTrue(DilationFlags(given).value))
      && (p.zeroed.Some? <==> zeroInitResidual)
      && (p.zeroed.Some? ==> p.zeroed.value == (if kind == Basic then Bn2 else Bn3))
  {
    var flags := DilationFlags(given).value;
    var s := Settings(kind, groups, widthPerGroup);
    var stages := Stages(counts, flags);
    assert PlanNetwork(kind, counts, inChannel, zeroInitResidual, groups, widthPerGroup, given)
      == Ok(BuildPlan(kind, counts, inChannel, zeroInitResidual, groups, widthPerGroup, flags));
    StageFacts(s, stages, 0);
    StageFacts(s, stages, 1);
    StageFacts(s, stages, 2);
    StageFacts(s, stages, 3);
    assert stages[..0] == [];
    FinalInplanes(s, stages, StartState);
    FinalDilationIsPower(s, stages, StartState);
    DilatingStagesAreTrueFlags(counts, flags);
  }

  /** Stage `k` of a plan: its size and its incoming channel count. */
  lemma StageFacts(s: Settings, stages: seq<Stage>, k: nat)
    requires k < |stages|
    ensures |StageLayers(s, stages, StartState)| == |stages|
    ensures |StageLayers(s, stages, StartState)[k]| == LayerSize(stages[k].blocks)
    ensures StageLayers(s, stages, StartState)[k][0].inplanes ==
      if k == 0 then 64 else stages[k - 1].planes * Expansion(s.kind)
  {
    StageLayersAt(s, stages, StartState, k);
    if k > 0 {
      FinalInplanes(s, stages[..k], StartState);
    } else {
      assert stages[..k] == [];
    }
    LayerShape(s, stages[k], FinalState(s, stages[..k], StartState));
  }

  /** The first stage needs a shortcut exactly for the widening block variant. */
  lemma FirstStageShortcut(kind: BlockKind, counts: seq<int>, inChannel: int, zeroInitResidual: bool,
                           groups: int, widthPerGroup: int, given: Option<seq<bool>>)
    requires PlanNetwork(kind, counts, inChannel, zeroInitResidual, groups, widthPerGroup, given).Ok?
    ensures var p := PlanNetwork(kind, counts, inChannel, zeroInitResidual, groups, widthPerGroup, given).value;
      |p.layers| == 4 && |p.layers[0]| >= 1 &&
      (p.layers[0][0].downsample.Some? <==> kind == Bottleneck) &&
      (kind == Bottleneck ==> p.layers[0][0].downsample == Some(Shortcut(64, 256, 1)))
  {
    var s := Settings(kind, groups, widthPerGroup);
    var stages := Stages(counts, DilationFlags(given).value);
    StageLayersAt(s, stages, StartState, 0);
    assert stages[..0] == [];
    LayerShape(s, stages[0], StartState);
  }
}
