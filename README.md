# ResNet backbone planning (SelfCC, CIFAR-10 clustering module)

This project models how the SelfCC clustering network plans its residual
backbone. The Python `ResNet` constructor keeps two running counters,
`inplanes` (the channel count entering the next block) and `dilation`. It
validates the list of "replace stride with dilation" flags. It then builds four
stages (widths 64, 128, 256, 512; strides 1, 2, 2, 2), and each stage-building
call works out every block's constructor arguments from those counters. The
model also covers `get_resnet_cifar`, which maps a version name to a block
variant and per-stage block counts.

Files:

- `wrappers.dfy`: `Option` and `Result`.
- `backbone_plan.dfy` (module `BackbonePlan`): the data model (`BlockKind`,
  `BlockSpec`, `Shortcut`, `Stage`, `PlanState`, `NetworkPlan`,
  `BuildError`). It also defines the planner as pure functions
  (`LayerBlocks`, `StageLayers`, `FinalState`, `PlanNetwork`) and proves the
  lemmas about them.
- `backbone.dfy` (module `Backbone`): class `ResNet`, whose fields `inplanes`
  and `dilation` are updated in place. `MakeLayer` is `_make_layer`, with its
  append loop. `MakeStages` holds the constructor's four stage calls. `New` is
  the constructor, which can fail, so it returns a `Result`. Every method is
  proved equal to the planner functions.
- `model_selector.dfy` (module `ModelSelector`): `Lookup`, the version table
  as a function, and `GetResNetCifar`, which builds all three backbones
  eagerly and returns the one named.

A block is an opaque record of its constructor arguments: kind, `inplanes`,
`planes`, stride, optional 1x1-convolution shortcut, groups, base width and
dilation. Python integers are unbounded, so `int` is used throughout.

## Model

| member | source | states |
|---|---|---|
| `BackbonePlan.DilationFlags` | SelfCC-main/cifar10/clustering_module_cifar10.py:27-35 | validation fails (naming the list) exactly when a flag list is given and its length is not 3; an absent list becomes three `false` flags; a valid list is used unchanged |
| `BackbonePlan.AppendedShape` | SelfCC-main/cifar10/clustering_module_cifar10.py:85-109 | after `count` appends a stage holds `count` blocks: the first block, then copies of the later-block record |
| `BackbonePlan.LayerShape` | SelfCC-main/cifar10/clustering_module_cifar10.py:72-111 | a stage has `max(blocks, 1)` blocks. The first gets the incoming `inplanes`, a stride of 1 when dilating and the requested stride otherwise, and the dilation from before the call. It has a shortcut (`inplanes` to `planes*expansion`, at that stride) iff that stride is not 1 or `inplanes != planes*expansion`. Every later block gets `planes*expansion` input channels, stride 1, no shortcut and the dilation after the call (old dilation times the stride when dilating, unchanged otherwise). Afterwards `inplanes = planes*expansion`, and the dilation is the updated one even when the stage has a single block |
| `BackbonePlan.FourStages` | SelfCC-main/cifar10/clustering_module_cifar10.py:43-52 | planning four stages gives exactly the four stage results in order, each built from the counters the previous stage left |
| `BackbonePlan.FinalInplanes` | SelfCC-main/cifar10/clustering_module_cifar10.py:98 | after a non-empty run of stages, `inplanes` is the last stage's `planes*expansion` |
| `BackbonePlan.StageLayersAt` | SelfCC-main/cifar10/clustering_module_cifar10.py:43-52 | there is one block list per stage, and stage `k` is planned from the counters that the first `k` stages leave |
| `BackbonePlan.StageLayersLength` | SelfCC-main/cifar10/clustering_module_cifar10.py:43-52 | the plan holds exactly one block list per stage |
| `BackbonePlan.FinalDilationIsPower` | SelfCC-main/cifar10/clustering_module_cifar10.py:76-77 | when every dilating stage asks for stride 2, the final dilation is the starting one times 2 to the number of dilating stages |
| `BackbonePlan.DilationNeverDecreases` | SelfCC-main/cifar10/clustering_module_cifar10.py:76-77 | with positive strides and a positive start, the dilation after any run of stages is at least the starting dilation |
| `BackbonePlan.DilatingStagesAreTrueFlags` | SelfCC-main/cifar10/clustering_module_cifar10.py:44-52 | the first stage never dilates and has stride 1; stage `i + 1` has stride 2 and dilates exactly when flag `i` is `true`; so the number of dilating stages equals the number of `true` flags |
| `BackbonePlan.PlanNetworkFails` | SelfCC-main/cifar10/clustering_module_cifar10.py:27-52 | the planning fails exactly when the flag list has the wrong length (reported first, as a flag error) or fewer than four stage counts are given (an index error at the first missing index) |
| `BackbonePlan.PlanNetworkShape` | SelfCC-main/cifar10/clustering_module_cifar10.py:25-70 | a successfully planned backbone has a 64-channel stem on `in_channel` inputs and four stages of `max(count, 1)` blocks each. The stages take 64, 64e, 128e and 256e input channels, where e is the expansion. The final `inplanes` equals `rep_dim = 512e`. The final dilation is 2 to the number of `true` flags. The zero-init tag is `bn2`/`bn3` exactly when zero-init is asked |
| `BackbonePlan.StageFacts` | SelfCC-main/cifar10/clustering_module_cifar10.py:43-52 | stage `k` has `max(count, 1)` blocks; its first block takes 64 channels for `k = 0`, else the previous stage's `planes*expansion` |
| `BackbonePlan.FirstStageShortcut` | SelfCC-main/cifar10/clustering_module_cifar10.py:79-83 | the first stage's first block has a shortcut iff the block is a Bottleneck, and it is then a 64-to-256 projection at stride 1 |
| `Backbone.ResNet.constructor` | SelfCC-main/cifar10/clustering_module_cifar10.py:25-37 | a fresh backbone starts with `inplanes = 64`, `dilation = 1` and the given groups and base width |
| `Backbone.ResNet.MakeLayer` | SelfCC-main/cifar10/clustering_module_cifar10.py:72-111 | the loop returns exactly `LayerBlocks` of the pre-call counters and sets the counters to `AfterLayer`, changing no other field |
| `Backbone.ResNet.MakeStages` | SelfCC-main/cifar10/clustering_module_cifar10.py:43-52 | the four stage calls fill `layer1`..`layer4` with `StageLayers` and leave the counters at `FinalState`, or report the first missing stage count |
| `Backbone.ResNet.New` | SelfCC-main/cifar10/clustering_module_cifar10.py:9-70 | it fails with exactly the error `PlanNetwork` gives, or returns a fresh object whose plan is `PlanNetwork`'s and whose `groups` and `baseWidth` are the given ones |
| `ModelSelector.Lookup` | SelfCC-main/cifar10/clustering_module_cifar10.py:132-145 | "ResNet18" selects (Basic, [2,2,2,2]), "ResNet34" (Basic, [3,4,6,3]), "ResNet50" (Bottleneck, [3,4,6,3]); any other name is an error that names it, with a message starting with the name |
| `ModelSelector.SelectedBackbones` | SelfCC-main/cifar10/clustering_module_cifar10.py:133-135 | every known version is planned successfully with the default arguments, with one stage per count, feature width 512 (2048 for ResNet50), dilation 1 and no zero-init |
| `ModelSelector.GetResNetCifar` | SelfCC-main/cifar10/clustering_module_cifar10.py:132-145 | it fails exactly for unknown names; otherwise it returns a freshly built backbone whose plan is that of the selected architecture, with groups 1 and base width 64 |

## Left out

- The forward pass (convolution, normalisation, ReLU, pooling, flattening) and the `encoder` L2 normalisation: floating-point tensor numerics.
- The `clustering_model` fuzzy-membership head (square roots, negative real powers, division): floating point. Its prototype matrix is fixed at 512 rows, which does not fit the 2048-wide ResNet50 features; that class is not part of this model.
- Weight initialisation (Kaiming normal, constant fills): random and floating point. Only which normalisation layer zero-init would reset (`bn2` or `bn3`) is kept, as one tag for the whole backbone.
- `load_init_weight`: file input and library-internal state loading.
- Device handling, and the `norm_layer` factory: it is passed through to every block unchanged.
- `BackbonePlan.PlanNetworkFails`: the failure conditions cover the planning in the constructor only. The library's block constructors can still refuse the arguments they are given. The published `BasicBlock` refuses `groups != 1`, `base_width != 64` and any `dilation > 1`, so a Basic backbone in which some block receives `dilation > 1` is planned here but cannot be built. That is the case for any `true` flag, unless the only `true` flag is the last one and the last stage holds a single block, whose first block still gets the previous dilation. The library's block code is not part of this model, so those refusals are not modelled. The same holds for `BackbonePlan.PlanNetworkShape`, `Backbone.ResNet.New` and `Backbone.ResNet.MakeLayer`.
- The internals of the library's `BasicBlock`, `Bottleneck` and `conv1x1`: this model records only their constructor arguments.
- Flags are modelled as booleans. Python accepts any truthy values, and this model does not capture that.
- `Backbone.ResNet.MakeStages`: when the count list is too short, the Python code raises its index error only after building the earlier stages. The model still builds those stages but does not say what they hold, because the half-built object is thrown away.
