/** The backbone object: its constructor and its stage builder update the
    running channel count and dilation in place, as the planner functions
    in BackbonePlan describe. */
module Backbone {
  import opened Wrappers
  import opened BackbonePlan

  class ResNet {
    const stemIn: int
    const groups: int
    const baseWidth: int
    var stemOut: int
    var inplanes: int
    var dilation: int
    var layer1: seq<BlockSpec>
    var layer2: seq<BlockSpec>
    var layer3: seq<BlockSpec>
    var layer4: seq<BlockSpec>
    var repDim: int
    var zeroed: Option<NormLayer>

    /** The running counters. */
    function State(): PlanState
      reads this
    {
      PlanState(inplanes, dilation)
    }

    /** Everything the constructor has planned so far. */
    function Plan(): NetworkPlan
      reads this
    {
      NetworkPlan(stemIn, stemOut, [layer1, layer2, layer3, layer4], State(), repDim, zeroed)
    }

    /** The object before any stage is built: 64 channels, dilation 1. */
    constructor (inChannel: int, groups: int, widthPerGroup: int)
      ensures stemIn == inChannel && this.groups == groups && baseWidth == widthPerGroup
      ensures State() == StartState
      ensures stemOut == 0 && repDim == 0 && zeroed == None
      ensures layer1 == [] && layer2 == [] && layer3 == [] && layer4 == []
    {
      stemIn := inChannel;
      this.groups := groups;
      baseWidth := widthPerGroup;
      inplanes := 64;
      dilation := 1;
      stemOut := 0;
      layer1, layer2, layer3, layer4 := [], [], [], [];
      repDim := 0;
      zeroed := None;
    }

    /** Builds one stage and moves the counters past it. */
    method MakeLayer(block: BlockKind, planes: int, blocks: int, stride: int, dilate: bool)
      returns (layer: seq<BlockSpec>)
      modifies this`inplanes, this`dilation
      ensures layer == LayerBlocks(Settings(block, groups, baseWidth), Stage(planes, blocks, stride, dilate), old(State()))
      ensures State() == AfterLayer(Settings(block, groups, baseWidth), Stage(planes, blocks, stride, dilate), old(State()))
    {
      ghost var s := Settings(block, groups, baseWidth);
      ghost var stage := Stage(planes, blocks, stride, dilate);
      ghost var before := State();
      var downsample: Option<Shortcut> := None;
      var previousDilation := dilation;
      var effectiveStride := stride;
      if dilate {
        dilation := dilation * stride;
        effectiveStride := 1;
      }
      if effectiveStride != 1 || inplanes != planes * Expansion(block) {
        downsample := Some(Shortcut(inplanes, planes * Expansion(block), effectiveStride));
      }
      layer := [BlockSpec(block, inplanes, planes, effectiveStride, downsample, groups, baseWidth, previousDilation)];
      inplanes := planes * Expansion(block);
      var i := 1;
      while i < blocks
        invariant 1 <= i <= LayerSize(blocks)
        invariant State() == AfterLayer(s, stage, before)
        invariant layer == Appended(s, stage, before, i)
      {
        layer := layer + [BlockSpec(block, inplanes, planes, 1, None, groups, baseWidth, dilation)];
        i := i + 1;
      }
    }

    /** The four stage-building calls of the constructor: widths 64, 128,
        256 and 512, strides 1, 2, 2 and 2, one flag per stride-2 stage.
        Reading a missing stage count stops the construction. */
    method MakeStages(block: BlockKind, counts: seq<int>, flags: seq<bool>) returns (missing: Option<nat>)
      requires |flags| == 3
      modifies this`inplanes, this`dilation, this`layer1, this`layer2, this`layer3, this`layer4
      ensures missing.Some? <==> |counts| < 4
      ensures missing.Some? ==> missing.value == |counts|
      ensures missing.None? ==>
        var s := Settings(block, groups, baseWidth);
        && [layer1, layer2, layer3, layer4] == StageLayers(s, Stages(counts, flags), old(State()))
        && State() == FinalState(s, Stages(counts, flags), old(State()))
    {
      ghost var s0 := State();
      if |counts| < 1 {
        return Some(0);
      }
      layer1 := MakeLayer(block, 64, counts[0], 1, false);
      ghost var s1 := State();
      if |counts| < 2 {
        return Some(1);
      }
      layer2 := MakeLayer(block, 128, counts[1], 2, flags[0]);
      ghost var s2 := State();
      if |counts| < 3 {
        return Some(2);
      }
      layer3 := MakeLayer(block, 256, counts[2], 2, flags[1]);
      ghost var s3 := State();
      if |counts| < 4 {
        return Some(3);
      }
      layer4 := MakeLayer(block, 512, counts[3], 2, flags[2]);
      FourStages(Settings(block, groups, baseWidth), Stages(counts, flags), s0, s1, s2, s3);
      missing := None;
    }

    /** The constructor proper: validates the dilation flags, then builds
        the four stages; fails as the planner says it does. */
    static method New(block: BlockKind, layers: seq<int>, inChannel: int, zeroInitResidual: bool,
                      groups: int, widthPerGroup: int, replaceStrideWithDilation: Option<seq<bool>>)
      returns (r: Result<ResNet, BuildError>)
      ensures r.Err? ==>
        PlanNetwork(block, layers, inChannel, zeroInitResidual, groups, widthPerGroup, replaceStrideWithDilation)
          == Err(r.error)
      ensures r.Ok? ==> fresh(r.value)
      ensures r.Ok? ==> r.value.groups == groups && r.value.baseWidth == widthPerGroup
      ensures r.Ok? ==>
        PlanNetwork(block, layers, inChannel, zeroInitResidual, groups, widthPerGroup, replaceStrideWithDilation)
          == Ok(r.value.Plan())
    {
      PlanNetworkFails(block, layers, inChannel, zeroInitResidual, groups, widthPerGroup, replaceStrideWithDilation);
      var net := new ResNet(inChannel, groups, widthPerGroup);
      var checked := DilationFlags(replaceStrideWithDilation);
      if checked.Err? {
        return Err(checked.error);
      }
      var flags := checked.value;
      net.stemOut := net.inplanes;
      var missing := net.MakeStages(block, layers, flags);
      if missing.Some? {
        return Err(StageCountMissing(missing.value));
      }
      net.repDim := 512 * Expansion(block);
      if zeroInitResidual {
        net.zeroed := Some(ZeroInitTarget(block));
      }
      assert net.Plan() == BuildPlan(block, layers, inChannel, zeroInitResidual, groups, widthPerGroup, flags);
      r := Ok(net);
    }
  }
}
