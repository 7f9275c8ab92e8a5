/** Choosing a backbone by its version name. */
module ModelSelector {
  import opened Wrappers
  import opened BackbonePlan
  import opened Backbone

  /** A block variant and its per-stage block counts. */
  datatype Architecture = Architecture(kind: BlockKind, counts: seq<int>)

  /** A version name that is not in the table. */
  datatype LookupError = UnknownVersion(name: string)

  function ErrorMessage(e: LookupError): string
  {
    e.name + " is not a valid ResNet version"
  }

  /** The three known versions. */
  function Versions(): map<string, Architecture>
  {
    map["ResNet18" := Architecture(Basic, [2, 2, 2, 2]),
        "ResNet34" := Architecture(Basic, [3, 4, 6, 3]),
        "ResNet50" := Architecture(Bottleneck, [3, 4, 6, 3])]
  }

  /** The architecture a version name selects. */
  function Lookup(name: string): (r: Result<Architecture, LookupError>)
    ensures r.Ok? <==> name == "ResNet18" || name == "ResNet34" || name == "ResNet50"
    ensures name == "ResNet18" ==> r == Ok(Architecture(Basic, [2, 2, 2, 2]))
    ensures name == "ResNet34" ==> r == Ok(Architecture(Basic, [3, 4, 6, 3]))
    ensures name == "ResNet50" ==> r == Ok(Architecture(Bottleneck, [3, 4, 6, 3]))
    ensures r.Err? ==> r.error == UnknownVersion(name) && ErrorMessage(r.error)[..|name|] == name
  {
    if name in Versions() then Ok(Versions()[name]) else Err(UnknownVersion(name))
  }

  /** The plan of the backbone built for an architecture with every other
      constructor argument left at its default. */
  function DefaultPlan(a: Architecture): Result<NetworkPlan, BuildError>
  {
    PlanNetwork(a.kind, a.counts, 3, false, 1, 64, None)
  }

  /** Every known version builds, with one stage per count, the feature width
      of its block variant and no dilation. */
  lemma SelectedBackbones(name: string)
    requires Lookup(name).Ok?
    ensures var a := Lookup(name).value;
      && DefaultPlan(a).Ok?
      && |DefaultPlan(a).value.layers| == 4
      && (forall k :: 0 <= k < 4 ==> |DefaultPlan(a).value.layers[k]| == a.counts[k])
      && DefaultPlan(a).value.repDim == (if name == "ResNet50" then 2048 else 512)
      && DefaultPlan(a).value.final.dilation == 1
      && DefaultPlan(a).value.zeroed == None
  {
    var a := Lookup(name).value;
    PlanNetworkFails(a.kind, a.counts, 3, false, 1, 64, None);
    PlanNetworkShape(a.kind, a.counts, 3, false, 1, 64, None);
    assert CountTrue([false, false, false]) == 0 by {
      assert [false, false, false][1..][1..][1..] == [];
    }
  }

  /** Builds all three backbones, then returns the one named. */
  method GetResNetCifar(name: string) returns (r: Result<ResNet, LookupError>)
    ensures r.Err? <==> Lookup(name).Err?
    ensures r.Err? ==> r.error == Lookup(name).error
    ensures r.Ok? ==> fresh(r.value) && DefaultPlan(Lookup(name).value) == Ok(r.value.Plan())
    ensures r.Ok? ==> r.value.groups == 1 && r.value.baseWidth == 64
  {
    SelectedBackbones("ResNet18");
    SelectedBackbones("ResNet34");
    SelectedBackbones("ResNet50");
    var resnet18 := ResNet.New(Basic, [2, 2, 2, 2], 3, false, 1, 64, None);
    var resnet34 := ResNet.New(Basic, [3, 4, 6, 3], 3, false, 1, 64, None);
    var resnet50 := ResNet.New(Bottleneck, [3, 4, 6, 3], 3, false, 1, 64, None);
    assert resnet18.Ok? && resnet34.Ok? && resnet50.Ok?;
    var resnets := map["ResNet18" := resnet18.value, "ResNet34" := resnet34.value, "ResNet50" := resnet50.value];
    if name !in resnets {
      return Err(UnknownVersion(name));
    }
    r := Ok(resnets[name]);
  }
}
