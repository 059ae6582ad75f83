# bevy_dog render core, modelled in Dafny

bevy_dog is a difference-of-Gaussians (DoG) post-processing effect for the
Bevy engine. Each frame a render-graph node draws a fixed chain of
full-screen passes. The chain runs as follows:
- rgb2lab conversion;
- an optional tensor-flow-map (TFM) chain of three passes;
- either the flow-guided (FDoG) or the plain DoG blur pair;
- an optional anti-alias pass;
- a final blend over a bundled crosshatch image.

Two `i32` toggles select the chain: `aa` and `tfm`, each compared with 1. The passes render into seven per-view scratch textures, which a prepare system asks the engine's texture cache for. The pipelines come from a startup resource and from three specialisation tables keyed by small enums.

The project models these parts, one module per source file:

| module | source file | form |
|---|---|---|
| `World` | the ECS queries the systems iterate | entities as records of the components the queries filter on; a query is a filter over the entities, taken in iteration order |
| `Settings` | `src/settings.rs` | constant records and enum codes; presets are compared field by field |
| `Pipeline` | `src/gaussian/pipeline.rs` | pure `specialize` functions; classes for the pipeline cache (a log of queued descriptors, an id is its position) and for the memo tables (maps from key to id); methods for `from_world` and `prepare_gaussian_pipelines` |
| `Textures` | `src/textures.rs` | a class for the texture cache (a log of requests, a texture is known by its request's position) and a looping method for `prepare_dog_textures` |
| `GaussianTextures` | `src/gaussian/textures.rs` | the variant of `prepare_dog_textures` that attaches the crosshatch texture and returns early when the image is missing |
| `Node` | `src/node.rs` | a class for the render context (a log of recorded passes), a method for `DoGNode::run`, a looping method for `prepare_dog_bind_groups` |

Each pass is recorded in the model as an abstract record with five parts:
- its kind;
- its label;
- its pipeline id;
- the buffers it samples (its group-0 input plus the textures of its group-1 bind group);
- the one buffer it renders to.

The buffers are Source, Lab, Eigen, Horizontal, Vertical, FirstDog, SecondDog, Aa, Destination and Crosshatch. On top of the pass log the model defines read-before-write hazards: a pass that samples a scratch texture which no earlier pass of the frame rendered to.

## Model

| member | source | states |
|---|---|---|
| World.Select | src/textures.rs:31 | the entities a query visits, in iteration order; never more than the world holds |
| World.SelectMembers | src/textures.rs:31 | an entity is visited exactly when it is in the world and carries the query's components |
| Settings.ThresholdingCode | src/settings.rs:9-14 | `Thresholding as i32` is the declaration index 0..3, and decoding it gives the variant back |
| Settings.BlendModeCode | src/settings.rs:17-21 | `BlendMode as i32` is the declaration index 0..2, and decoding it gives the variant back |
| Settings.CodesAreDeclarationIndices | src/settings.rs:9-21 | a code names a variant exactly when it is in range, and encoding that variant gives the code back |
| Settings.Differing | src/settings.rs:107-132 | the set of fields two settings blocks differ in: a field is in it exactly when the two blocks disagree on it |
| Settings.NoDifferenceMeansEqual | src/settings.rs:25-49 | two blocks that differ in no listed field are equal, so the field list covers the whole struct |
| Settings.Default | src/settings.rs:51-79 | `impl Default for DoGSettings`, written out field by field, equals `DoGSettings::DEFAULT` |
| Settings.OutlineDitherDiffersFromDefault | src/settings.rs:107-116 | `OUTLINE_DITHER` differs from `DEFAULT` in exactly k, tau, phi, thresholding, thresholds, min_color and max_color, and selects tanh thresholding |
| Settings.CrosshatchDiffersFromDefault | src/settings.rs:117-128 | `CROSSHATCH` differs from `DEFAULT` in exactly tau, blend_strength, max_color, phi, thresholding, enable_layers, thresholds, enable_hatch and hatch_resolutions, and selects tanh thresholding |
| Settings.OutlineDiffersFromDefault | src/settings.rs:129-132 | `OUTLINE` differs from `DEFAULT` only in tau, which is 15 |
| Settings.PresetLayers | src/settings.rs:82-128 | `DEFAULT` enables layer 0 only and stores the no-threshold and no-blend codes; `CROSSHATCH` enables all four layers |
| Settings.DefaultPasses | src/settings.rs:141-145 | the default pass toggles leave both `aa` and `tfm` off |
| Pipeline.LayoutTextureSlots | src/gaussian/pipeline.rs:143-188 | the postprocess and TFM bind group layouts each hold one texture slot, the blend layout two |
| Pipeline.TfmSpecialize | src/gaussian/pipeline.rs:316-352 | every TFM key gets the TFM shader, entry point "fragment", the postprocess layout alone, and the shader def that names that key |
| Pipeline.FdogSpecialize | src/gaussian/pipeline.rs:358-400 | the FDoG key selects entry "first" and def FIRST, or "second" and SECOND; the layout is the postprocess layout alone |
| Pipeline.DogSpecialize | src/gaussian/pipeline.rs:406-446 | the DoG key selects entry "first_gaussian_blur_pass" and def FIRST, or "second_gaussian_blur_pass" and SECOND; the layout is the postprocess layout alone |
| Pipeline.SpecializeIsInjective | src/gaussian/pipeline.rs:316-446 | distinct keys give distinct descriptors in each table, and no two tables produce the same descriptor |
| Pipeline.PipelineCache.QueueRenderPipeline | src/gaussian/pipeline.rs:190-208 | queuing appends the descriptor, and the returned id names it |
| Pipeline.FromWorld | src/gaussian/pipeline.rs:136-307 | queues the rgba2lab, anti-alias and blend pipelines in that order; every pass family shares the one postprocess layout and sampler; FDoG and anti-alias carry the TFM layout and blend carries the blend layout |
| Pipeline.SpecializedPipelines.SpecializeTfm | src/gaussian/pipeline.rs:464-480 | a known key returns its recorded id and queues nothing; an unknown key queues its descriptor once and records and returns the freshly queued position, the old queue length; the tables stay valid and the other tables are untouched |
| Pipeline.SpecializedPipelines.SpecializeFdog | src/gaussian/pipeline.rs:482-492 | the same lookup-or-queue on the FDoG table, an unknown key recording the freshly queued position |
| Pipeline.SpecializedPipelines.SpecializeDog | src/gaussian/pipeline.rs:494-504 | the same lookup-or-queue on the DoG table, an unknown key recording the freshly queued position |
| Pipeline.RecordedDescribes | src/gaussian/pipeline.rs:509-526 | once all seven keys are recorded, every id of the assembled record names the descriptor its field stands for |
| Pipeline.MissingIffIncomplete | src/gaussian/pipeline.rs:464-504 | one view queues nothing exactly when all seven keys are already recorded, at most seven descriptors in any case, and all seven when the tables start empty |
| Pipeline.SpecializeTfmKeys | src/gaussian/pipeline.rs:464-480 | the three TFM lookups queue the descriptors of exactly the missing keys, in the order Eigenvector, Vertical, Horizontal, keep every recorded id, record each missing key at a position past the old queue (an unrecorded Eigenvector at the old queue length), and return the ids now recorded for the three keys |
| Pipeline.SpecializeFdogKeys | src/gaussian/pipeline.rs:482-492 | the two flow-guided lookups queue the descriptors of exactly the missing keys, first then second, keep every recorded id, record each missing key at a position past the old queue, and return the ids now recorded |
| Pipeline.SpecializeDogKeys | src/gaussian/pipeline.rs:494-504 | the two plain lookups queue the descriptors of exactly the missing keys, first then second, keep every recorded id, record each missing key at a position past the old queue, and return the ids now recorded |
| Pipeline.SpecializeView | src/gaussian/pipeline.rs:461-526 | one view queues exactly the descriptors of its missing keys, in lookup order, keeps every id already recorded, records each missing key at a position in the appended block, and returns the record of the now complete tables: rgb2lab, aa and blend are the shared fixed ids, vertical comes from the Vertical key and horizontal from the Horizontal key, and each id names its descriptor; when the tables were already complete, nothing is queued and the tables and record are unchanged |
| Pipeline.ServeViews | src/gaussian/pipeline.rs:461-527 | after the loop over all views, the views served are exactly those with settings, in order, each with the record of the complete tables, and the queue and tables relate to their starting values as `Served` describes |
| Pipeline.PrepareGaussianPipelines | src/gaussian/pipeline.rs:454-528 | every entity with settings receives one id record, in iteration order, and all of them receive the same complete record; the cache grows by exactly the descriptors of the keys missing at the start, every recorded id is kept, and each newly recorded id lies in the appended block; with no entity with settings, the cache and the three tables are unchanged |
| Textures.TextureCache.Get | src/textures.rs:45-57 | each request is logged, and the texture handed back is the answer to that request |
| Textures.ScratchRequestsShape | src/textures.rs:38-139 | the seven requests carry the seven texture labels in order, share one extent, and carry mip count 1, sample count 1, a 2D dimension, the engine's default format and usage texture-binding plus render-attachment |
| Textures.ScratchAtAnswersInOrder | src/textures.rs:141-149 | the component's seven fields, in the order lab, eigen, horizontal, vertical, first_dog, second_dog, aa, are the answers to the seven consecutive requests |
| Textures.GetScratchTextures | src/textures.rs:45-139 | makes the seven requests in order and returns their answers as one component |
| Textures.PrepareDogTextures | src/textures.rs:27-151 | the cache's log grows by exactly the seven requests of each visited camera view with a known size, in order, and each such view, and no other, receives one component holding the answers to its own seven requests |
| Textures.RequestedCount | src/textures.rs:33-139 | seven requests are made per visited camera view with a known size |
| Textures.RequestedBlocks | src/textures.rs:38-139 | the k-th block of seven requests is the seven scratch requests at the k-th sized view's extent |
| Textures.InsertedEntities | src/textures.rs:33-149 | each visited camera view with a known size receives exactly one component, in visiting order, and no other entity does |
| Textures.InsertedTextures | src/textures.rs:141-149 | the k-th served view receives the answers to requests 7k to 7k+6 of this run |
| Textures.RequestedConcat | src/textures.rs:33 | visiting two runs of views makes the first run's requests, then the second run's |
| Textures.InsertedConcat | src/textures.rs:33 | visiting two runs of views inserts for the first run, then for the second, whose ids follow on |
| Textures.SkipKeepsLaterViews | src/textures.rs:34-36 | a view without a known size is skipped with `continue`, and the views after it are still served as if it were absent |
| Textures.OnlyQualifyingViewsServed | src/textures.rs:31 | every entity that receives a component has an extracted view, settings and a camera with a known size |
| GaussianTextures.WithCrosshatchKeeps | src/gaussian/textures.rs:19-28 | extending each component with the crosshatch texture keeps its entity and its seven scratch textures and sets the crosshatch field |
| GaussianTextures.InsertedExtendsFullEffect | src/gaussian/textures.rs:38-194 | with the crosshatch image present, the variant inserts what the full effect inserts, each extended with the crosshatch texture |
| GaussianTextures.PrepareDogTextures | src/gaussian/textures.rs:30-196 | with the image present, it requests and inserts like the full effect, with `crosshatch_texture` set to the image's texture; without it, it inserts nothing, and the first view with a known size still makes its seven requests before the system returns |
| GaussianTextures.MissingImageRequests | src/gaussian/textures.rs:148-150 | without the image, either no request is made or exactly seven are, all of depth 1 and one mip level |
| Node.ViewBindGroupsFitLayouts | src/node.rs:547-575 | each of the three per-view bind groups supplies exactly as many textures as its layout has texture slots |
| Node.PrepareDogBindGroups | src/node.rs:513-578 | nothing is inserted while the crosshatch image is not loaded; otherwise every textured view with settings receives the same three bind groups, in iteration order: TFM over Vertical, aa-blend over Aa and Crosshatch, blend over SecondDog and Crosshatch |
| Node.RenderContext.RecordPass | src/node.rs:130-163 | recording a pass appends it to the frame's pass log |
| Node.RecordPasses | src/node.rs:130-494 | the ready part of `run` records exactly the schedule the toggles select |
| Node.Run | src/node.rs:39-497 | panics when the rgb2lab pipeline is not built; otherwise returns Ok; records no pass unless all ten pipelines, the view uniforms and the settings uniforms are available, and then records the schedule |
| Node.SchedulePerToggles | src/node.rs:130-494 | the pass kinds for the four toggle cases: 4 plain passes, 4 flow-guided passes, 5 with anti-alias, 8 with both |
| Node.ScheduleEnds | src/node.rs:130-494 | the first pass converts Source to Lab with the rgb2lab pipeline; the last is the blend pass into Destination, and no earlier pass renders to Destination |
| Node.ScheduleWritesOnce | src/node.rs:130-494 | no buffer is rendered to twice in a frame |
| Node.FlowMapChain | src/node.rs:165-273 | the eigenvector and vertical passes run exactly when both toggles are 1, and then take Lab to Eigen to Horizontal to Vertical; the middle pass binds the horizontal pipeline |
| Node.OneGaussianFamily | src/node.rs:275-417 | the FDoG passes run exactly when `tfm` is 1 and the plain DoG passes exactly when it is not |
| Node.GaussianFamilyBuffers | src/node.rs:275-417 | the chosen family's two passes take Lab to FirstDog to SecondDog, with that family's pipelines, right after the flow-map chain or the Lab conversion |
| Node.AntiAliasIffToggle | src/node.rs:419-455 | the anti-alias pass runs exactly when `aa` is 1, just before the blend, and takes SecondDog to Aa |
| Node.BlendInputs | src/node.rs:457-494 | with the per-view bind groups, the blend samples Source and Crosshatch, plus Aa when `aa` is 1 and SecondDog otherwise |
| Node.DefaultTogglesSchedule | src/settings.rs:141-145 | the default toggles select the four-pass plain schedule |
| Node.HazardsBothOn | src/node.rs:165-455 | with both toggles on, every scratch texture a pass samples was rendered earlier in the frame |
| Node.HazardsBothOff | src/node.rs:347-417 | with both toggles off, every scratch texture a pass samples was rendered earlier in the frame |
| Node.HazardsFlowGuidedOnly | src/node.rs:308 | with `tfm` alone on, both FDoG passes sample Vertical, which no pass of the frame rendered, and there is no other hazard |
| Node.HazardsAntiAliasOnly | src/node.rs:452 | with `aa` alone on, the anti-alias pass samples Vertical, which no pass of the frame rendered, and there is no other hazard |
| Node.HazardsPerToggles | src/node.rs:165-494 | the exact hazard set for each of the four toggle cases |
| Node.HazardFreeIffTogglesAgree | src/node.rs:165-494 | a frame is free of read-before-write hazards exactly when the two toggles agree |

## Left out

- Shader maths (thresholding, blend modes, hatching, structure-tensor analysis, RGB to Lab, the blurs) lives in WGSL assets that src/gaussian/plugin.rs only loads; it is floating-point numerics and is not part of this model.
- GPU plumbing is reduced to abstract records: bind-group and sampler construction, render-pass descriptors, dynamic uniform offsets, and the draw call.
- The `post_process_write` ping-pong of src/node.rs:117 is left out; in the model Source and Destination are fixed buffers.
- The texture cache's reuse and reallocation of textures across frames and resizes happens inside the engine and is not modelled. The cache is an allocator whose answer is known by the position of its request.
- src/gaussian/node.rs and src/gaussian/plugin.rs are not part of this model. They are a single-pass node, and plugin registration with embedded-asset loading.
- The fields of src/gaussian/settings.rs are not part of this model. It is the settings component that src/gaussian/pipeline.rs and src/gaussian/textures.rs filter on and lay out, and the one the binary's plugin uses (src/main.rs:10-12). The `Settings` module models the record of src/settings.rs, which src/node.rs and src/textures.rs use.
- World.View: the flag `dogSettings` stands for the settings component of the plugin variant in use. That is `crate::settings::DoGSettings` for src/node.rs and src/textures.rs, and `crate::gaussian::settings::DoGSettings` for src/gaussian/pipeline.rs and src/gaussian/textures.rs. The model merges the two into one flag, so it does not capture a view that carries one but not the other.
- World.View: Node reads the id record of src/gaussian/pipeline.rs:122 (`Pipeline.GaussianPipelineIds`) in place of `crate::pipeline::GaussianPipelineIDs` (src/node.rs:2). That module is not part of this model, and `Node` and `GaussianTextures.InsertedExtendsFullEffect` rest on this merge.
- Node.Run: the node's view query (src/node.rs:28-37) runs it only for views that carry a view target, a view uniform offset, the settings and pass-toggle components, the settings uniform index, `GaussianPipelineIDs`, `DoGTextures` and `DoGBindGroups`. `Run` takes these per-view components as arguments and does not model the query that supplies them.
- src/debug_ui.rs, examples/debug_ui/lib.rs, src/main.rs and examples/crosshatch_scene.rs are UI and scene setup, and are not part of this model.
- Node.Run: `get_render_pipeline_state(...).unwrap()` (src/node.rs:58-60) is modelled as the outcome `Panicked` whenever the rgb2lab pipeline is not built. The engine's finer pipeline states (queued, creating, error) are not distinguished.
- Node.Run: the console messages printed on the early returns are left out.
- Pipeline.FromWorld: the pipeline descriptors the source queues list only the postprocess layout. The group-1 layouts are recorded beside each pass family, as the source keeps them, and the model does not check that a pipeline's layout admits the bind groups a pass sets.
- World.Select: a query's iteration order is modelled as a fixed order of the world's entities. The engine does not promise that order, so the contracts only say that insertions follow the order in which entities are visited.
- Textures.PrepareDogTextures: the camera query requires the `ExtractedCamera` component. The model states the query's filter exactly but does not model archetype storage.
- GaussianTextures.PrepareDogTextures: with the image missing, the source returns at the first view it requested textures for. Every earlier view was skipped for having no size, so no view receives a component that frame. The contract states this as an empty insertion list.
- The reflection, `ShaderType` and `ExtractComponent` derives of the settings record are generated code and are not modelled. Settings values are reals, because no arithmetic is done on them here.
