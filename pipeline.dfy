/**
 * Render-pipeline construction for the effect: the shared bind-group layouts
 * and sampler built once at startup, the three fixed pipelines queued then,
 * the three `specialize` tables that turn a small key into a pipeline
 * descriptor, and the per-view system that collects the ten pipeline ids a
 * view renders with.
 *
 * The engine's pipeline cache is modelled as the list of descriptors queued
 * so far (an id is a position in that list); the engine's per-key memo of
 * specialised pipelines is modelled as three maps from key to id.
 */
module Pipeline {
  import opened Wrappers
  import opened World

  /** What one binding slot of a bind-group layout holds. */
  datatype BindingType = Texture2d | FilteringSampler | ViewUniformBuffer | SettingsUniformBuffer

  datatype BindGroupLayout = BindGroupLayout(name: string, entries: seq<BindingType>)

  /** Group 0 of every pass: input texture, sampler, view uniform, settings uniform. */
  const POSTPROCESS_LAYOUT := BindGroupLayout(
    "DoG postprocess_bind_group_layout",
    [Texture2d, FilteringSampler, ViewUniformBuffer, SettingsUniformBuffer])

  /** Group 1 of the flow-guided and anti-alias passes: the flow map and its sampler. */
  const TFM_LAYOUT := BindGroupLayout("tfm_bind_group_layout", [Texture2d, FilteringSampler])

  /** Group 1 of the blend pass: the filtered image, the hatch image and the hatch sampler. */
  const BLEND_LAYOUT := BindGroupLayout("blend_bind_group_layout", [Texture2d, Texture2d, FilteringSampler])

  /** The number of texture slots of a layout. */
  function TextureSlots(entries: seq<BindingType>): nat {
    if entries == [] then 0
    else (if entries[0] == Texture2d then 1 else 0) + TextureSlots(entries[1..])
  }

  /**
   * The postprocess and flow-map layouts have one texture slot (the pass
   * input, the flow map); the blend layout has two (the filtered image and
   * the hatch image).
   */
  lemma LayoutTextureSlots()
    ensures TextureSlots(POSTPROCESS_LAYOUT.entries) == 1
    ensures TextureSlots(TFM_LAYOUT.entries) == 1
    ensures TextureSlots(BLEND_LAYOUT.entries) == 2
  {
  }

  datatype AddressMode = ClampToEdge | Repeat
  datatype FilterMode = Nearest | Linear

  datatype SamplerDescriptor = SamplerDescriptor(
    name: string, addressU: AddressMode, addressV: AddressMode, addressW: AddressMode,
    magFilter: FilterMode, minFilter: FilterMode)

  /** The one sampler every pipeline record shares: linear filtering, clamped on all axes. */
  const COMMON_SAMPLER := SamplerDescriptor("common sampler", ClampToEdge, ClampToEdge, ClampToEdge, Linear, Linear)

  /** The six bundled shader programs. */
  datatype Shader = Rgb2LabShader | TfmShader | FdogShader | DogShader | AaShader | BlendShader

  /**
   * A render-pipeline descriptor, reduced to what differs between the
   * pipelines of the effect (all share the full-screen vertex stage, one
   * colour target of the default format, no blending and no depth).
   */
  datatype RenderPipelineDescriptor = RenderPipelineDescriptor(
    name: string,
    layout: seq<BindGroupLayout>,
    shader: Shader,
    shaderDefs: seq<string>,
    entryPoint: string)

  const RGBA2LAB_DESCRIPTOR := RenderPipelineDescriptor("rgba2lab_pipeline", [POSTPROCESS_LAYOUT], Rgb2LabShader, [], "fragment")
  const AA_DESCRIPTOR := RenderPipelineDescriptor("anti_aliasing_pipeline", [POSTPROCESS_LAYOUT], AaShader, [], "fragment")
  const BLEND_DESCRIPTOR := RenderPipelineDescriptor("blending_pipeline", [POSTPROCESS_LAYOUT], BlendShader, [], "fragment")

  // ---------------------------------------------------------------------------
  // Specialisation keys and their descriptors

  datatype TfmKey = Eigenvector | Vertical | Horizontal

  /** `FDoGPipelineKeys`: which of the two flow-guided DoG stages. */
  datatype FDoGKey = FDoGKey(first: bool)

  /** `DoGPipelineKeys`: which of the two plain DoG stages. */
  datatype DoGKey = DoGKey(first: bool)

  /** The tensor-flow-map stage a shader-def list selects in the shared TFM program. */
  function TfmKeyOfDefs(defs: seq<string>): Option<TfmKey> {
    if defs == ["EIGENVECTOR"] then Some(Eigenvector)
    else if defs == ["VERTICAL"] then Some(Vertical)
    else if defs == ["HORIZONTAL"] then Some(Horizontal)
    else None
  }

  /** The stage (`true` for the first) a shader-def list selects in the two-stage programs. */
  function StageOfDefs(defs: seq<string>): Option<bool> {
    if defs == ["FIRST"] then Some(true)
    else if defs == ["SECOND"] then Some(false)
    else None
  }

  /** `TFMPipeline::specialize`: one program, one entry point, one shader def per key. */
  function TfmSpecialize(key: TfmKey): (d: RenderPipelineDescriptor)
    ensures d.layout == [POSTPROCESS_LAYOUT]
    ensures d.shader == TfmShader && d.entryPoint == "fragment"
    ensures TfmKeyOfDefs(d.shaderDefs) == Some(key)
  {
    var defs := match key
      case Eigenvector => ["EIGENVECTOR"]
      case Vertical => ["VERTICAL"]
      case Horizontal => ["HORIZONTAL"];
    RenderPipelineDescriptor("RGBA2LAB", [POSTPROCESS_LAYOUT], TfmShader, defs, "fragment")
  }

  /** `FDoGPipeline::specialize`: the key picks both the entry point and the shader def. */
  function FdogSpecialize(key: FDoGKey): (d: RenderPipelineDescriptor)
    ensures d.layout == [POSTPROCESS_LAYOUT] && d.shader == FdogShader
    ensures StageOfDefs(d.shaderDefs) == Some(key.first)
    ensures d.entryPoint == (if key.first then "first" else "second")
  {
    var entry := if key.first then "first" else "second";
    var defs := if key.first then ["FIRST"] else ["SECOND"];
    RenderPipelineDescriptor("FDOG", [POSTPROCESS_LAYOUT], FdogShader, defs, entry)
  }

  /** `DoGPipeline::specialize`: as for FDoG, with the Gaussian-blur entry points. */
  function DogSpecialize(key: DoGKey): (d: RenderPipelineDescriptor)
    ensures d.layout == [POSTPROCESS_LAYOUT] && d.shader == DogShader
    ensures StageOfDefs(d.shaderDefs) == Some(key.first)
    ensures d.entryPoint == (if key.first then "first_gaussian_blur_pass" else "second_gaussian_blur_pass")
  {
    var entry := if key.first then "first_gaussian_blur_pass" else "second_gaussian_blur_pass";
    var defs := if key.first then ["FIRST"] else ["SECOND"];
    RenderPipelineDescriptor("DOG", [POSTPROCESS_LAYOUT], DogShader, defs, entry)
  }

  /** Distinct keys give distinct descriptors, in each of the three tables, and no two tables share one. */
  lemma SpecializeIsInjective(t1: TfmKey, t2: TfmKey, f1: FDoGKey, f2: FDoGKey, g1: DoGKey, g2: DoGKey)
    ensures TfmSpecialize(t1) == TfmSpecialize(t2) <==> t1 == t2
    ensures FdogSpecialize(f1) == FdogSpecialize(f2) <==> f1 == f2
    ensures DogSpecialize(g1) == DogSpecialize(g2) <==> g1 == g2
    ensures TfmSpecialize(t1) != FdogSpecialize(f1) && FdogSpecialize(f1) != DogSpecialize(g1)
    ensures TfmSpecialize(t1) != DogSpecialize(g1)
  {
    if TfmSpecialize(t1) == TfmSpecialize(t2) {
      assert Some(t1) == TfmKeyOfDefs(TfmSpecialize(t1).shaderDefs) == Some(t2);
    }
    if FdogSpecialize(f1) == FdogSpecialize(f2) {
      assert Some(f1.first) == StageOfDefs(FdogSpecialize(f1).shaderDefs) == Some(f2.first);
    }
    if DogSpecialize(g1) == DogSpecialize(g2) {
      assert Some(g1.first) == StageOfDefs(DogSpecialize(g1).shaderDefs) == Some(g2.first);
    }
  }

  // ---------------------------------------------------------------------------
  // The pipeline cache and the startup resource

  /** The engine's pipeline cache: every descriptor queued, an id being its position. */
  class PipelineCache {
    var descriptors: seq<RenderPipelineDescriptor>

    constructor ()
      ensures descriptors == []
    {
      descriptors := [];
    }

    method QueueRenderPipeline(d: RenderPipelineDescriptor) returns (id: nat)
      modifies this
      ensures descriptors == old(descriptors) + [d]
      ensures id == |old(descriptors)| && descriptors[id] == d
    {
      id := |descriptors|;
      descriptors := descriptors + [d];
    }
  }

  /** The layouts and sampler one pass family binds; `passLayout` is its group-1 layout, if any. */
  datatype PassResources = PassResources(
    postprocessLayout: BindGroupLayout,
    sampler: SamplerDescriptor,
    passLayout: Option<BindGroupLayout>)

  /** `DoGPipelines`: the startup resource, with the ids of the three unspecialised pipelines. */
  datatype DoGPipelines = DoGPipelines(
    rgba2lab: PassResources,
    tfm: PassResources,
    fdog: PassResources,
    dog: PassResources,
    aa: PassResources,
    blend: PassResources,
    rgba2labId: nat,
    aaId: nat,
    blendId: nat)

  /** Pipeline `id` of the cache was queued from descriptor `d`. */
  predicate Names(descriptors: seq<RenderPipelineDescriptor>, id: nat, d: RenderPipelineDescriptor) {
    id < |descriptors| && descriptors[id] == d
  }

  /** The three fixed pipelines of `p` are in `cache` at their ids. */
  predicate FixedPipelinesQueued(p: DoGPipelines, descriptors: seq<RenderPipelineDescriptor>) {
    && Names(descriptors, p.rgba2labId, RGBA2LAB_DESCRIPTOR)
    && Names(descriptors, p.aaId, AA_DESCRIPTOR)
    && Names(descriptors, p.blendId, BLEND_DESCRIPTOR)
  }

  /**
   * `DoGPipelines::from_world`: builds the three layouts and the sampler once,
   * hands the same postprocess layout and sampler to every pass family, and
   * queues the rgba2lab, anti-alias and blend pipelines in that order.
   */
  method FromWorld(cache: PipelineCache) returns (p: DoGPipelines)
    modifies cache
    ensures cache.descriptors == old(cache.descriptors) + [RGBA2LAB_DESCRIPTOR, AA_DESCRIPTOR, BLEND_DESCRIPTOR]
    ensures FixedPipelinesQueued(p, cache.descriptors)
    ensures forall r :: r in [p.rgba2lab, p.tfm, p.fdog, p.dog, p.aa, p.blend] ==>
              r.postprocessLayout == POSTPROCESS_LAYOUT && r.sampler == COMMON_SAMPLER
    ensures p.rgba2lab.passLayout == p.tfm.passLayout == p.dog.passLayout == None
    ensures p.fdog.passLayout == p.aa.passLayout == Some(TFM_LAYOUT)
    ensures p.blend.passLayout == Some(BLEND_LAYOUT)
  {
    var postprocess := POSTPROCESS_LAYOUT;
    var tfmLayout := TFM_LAYOUT;
    var blendLayout := BLEND_LAYOUT;
    var rgba2labId := cache.QueueRenderPipeline(RGBA2LAB_DESCRIPTOR);
    var sampler := COMMON_SAMPLER;
    var rgba2lab := PassResources(postprocess, sampler, None);
    var tfm := PassResources(postprocess, sampler, None);
    var fdog := PassResources(postprocess, sampler, Some(tfmLayout));
    var dog := PassResources(postprocess, sampler, None);
    var aaId := cache.QueueRenderPipeline(AA_DESCRIPTOR);
    var aa := PassResources(postprocess, sampler, Some(tfmLayout));
    var blendId := cache.QueueRenderPipeline(BLEND_DESCRIPTOR);
    var blend := PassResources(postprocess, sampler, Some(blendLayout));
    p := DoGPipelines(rgba2lab, tfm, fdog, dog, aa, blend, rgba2labId, aaId, blendId);
  }

  // ---------------------------------------------------------------------------
  // Per-view pipeline ids

  datatype TfmPipelineIds = TfmPipelineIds(eigenvector: nat, horizontal: nat, vertical: nat)
  datatype StagePipelineIds = StagePipelineIds(first: nat, second: nat)

  /** `GaussianPipelineIDs`: the ten pipelines one view renders with. */
  datatype GaussianPipelineIds = GaussianPipelineIds(
    rgb2lab: nat,
    tfm: TfmPipelineIds,
    dog: StagePipelineIds,
    fdog: StagePipelineIds,
    aa: nat,
    blend: nat)

  /** Every id of `ids` names, in the cache, the descriptor its field stands for. */
  predicate IdsDescribe(ids: GaussianPipelineIds, p: DoGPipelines, descriptors: seq<RenderPipelineDescriptor>) {
    && ids.rgb2lab == p.rgba2labId && ids.aa == p.aaId && ids.blend == p.blendId
    && Names(descriptors, ids.tfm.eigenvector, TfmSpecialize(Eigenvector))
    && Names(descriptors, ids.tfm.horizontal, TfmSpecialize(Horizontal))
    && Names(descriptors, ids.tfm.vertical, TfmSpecialize(Vertical))
    && Names(descriptors, ids.fdog.first, FdogSpecialize(FDoGKey(true)))
    && Names(descriptors, ids.fdog.second, FdogSpecialize(FDoGKey(false)))
    && Names(descriptors, ids.dog.first, DogSpecialize(DoGKey(true)))
    && Names(descriptors, ids.dog.second, DogSpecialize(DoGKey(false)))
  }

  /** A component insertion `commands.entity(entity).insert(ids)`. */
  datatype IdsInsert = IdsInsert(entity: nat, ids: GaussianPipelineIds)

  /**
   * `DoGSpecializedRenderPipelines`: for each of the three tables, the id
   * already queued for a key. `Valid` says each recorded id names the
   * descriptor its key specialises to.
   */
  class SpecializedPipelines {
    var tfm: map<TfmKey, nat>
    var fdog: map<FDoGKey, nat>
    var dog: map<DoGKey, nat>

    constructor ()
      ensures tfm == map[] && fdog == map[] && dog == map[]
    {
      tfm, fdog, dog := map[], map[], map[];
    }

    /** Every recorded id names, in `cache`, the descriptor its key specialises to. */
    ghost predicate Valid(cache: PipelineCache)
      reads this, cache
    {
      && (Eigenvector in tfm ==> Names(cache.descriptors, tfm[Eigenvector], TfmSpecialize(Eigenvector)))
      && (Vertical in tfm ==> Names(cache.descriptors, tfm[Vertical], TfmSpecialize(Vertical)))
      && (Horizontal in tfm ==> Names(cache.descriptors, tfm[Horizontal], TfmSpecialize(Horizontal)))
      && (FDoGKey(true) in fdog ==> Names(cache.descriptors, fdog[FDoGKey(true)], FdogSpecialize(FDoGKey(true))))
      && (FDoGKey(false) in fdog ==> Names(cache.descriptors, fdog[FDoGKey(false)], FdogSpecialize(FDoGKey(false))))
      && (DoGKey(true) in dog ==> Names(cache.descriptors, dog[DoGKey(true)], DogSpecialize(DoGKey(true))))
      && (DoGKey(false) in dog ==> Names(cache.descriptors, dog[DoGKey(false)], DogSpecialize(DoGKey(false))))
    }

    /** `SpecializedRenderPipelines::specialize` on the TFM table: reuse the id of a known key, else queue. */
    method SpecializeTfm(cache: PipelineCache, key: TfmKey) returns (id: nat)
      requires Valid(cache)
      modifies this`tfm, cache
      ensures Valid(cache)
      ensures id < |cache.descriptors| && cache.descriptors[id] == TfmSpecialize(key)
      ensures tfm == old(tfm)[key := id] && fdog == old(fdog) && dog == old(dog)
      ensures key in old(tfm) ==> id == old(tfm)[key]
      ensures key in old(tfm) ==> cache.descriptors == old(cache.descriptors) && tfm == old(tfm)
      ensures key !in old(tfm) ==> cache.descriptors == old(cache.descriptors) + [TfmSpecialize(key)] && id == |old(cache.descriptors)|
      ensures Extends(cache.descriptors, old(cache.descriptors))
    {
      if key in tfm {
        id := tfm[key];
      } else {
        id := cache.QueueRenderPipeline(TfmSpecialize(key));
        tfm := tfm[key := id];
      }
    }

    /** The same lookup on the flow-guided DoG table. */
    method SpecializeFdog(cache: PipelineCache, key: FDoGKey) returns (id: nat)
      requires Valid(cache)
      modifies this`fdog, cache
      ensures Valid(cache)
      ensures id < |cache.descriptors| && cache.descriptors[id] == FdogSpecialize(key)
      ensures fdog == old(fdog)[key := id] && tfm == old(tfm) && dog == old(dog)
      ensures key in old(fdog) ==> id == old(fdog)[key]
      ensures key in old(fdog) ==> cache.descriptors == old(cache.descriptors) && fdog == old(fdog)
      ensures key !in old(fdog) ==> cache.descriptors == old(cache.descriptors) + [FdogSpecialize(key)] && id == |old(cache.descriptors)|
      ensures Extends(cache.descriptors, old(cache.descriptors))
    {
      if key in fdog {
        id := fdog[key];
      } else {
        id := cache.QueueRenderPipeline(FdogSpecialize(key));
        fdog := fdog[key := id];
      }
    }

    /** The same lookup on the plain DoG table. */
    method SpecializeDog(cache: PipelineCache, key: DoGKey) returns (id: nat)
      requires Valid(cache)
      modifies this`dog, cache
      ensures Valid(cache)
      ensures id < |cache.descriptors| && cache.descriptors[id] == DogSpecialize(key)
      ensures dog == old(dog)[key := id] && tfm == old(tfm) && fdog == old(fdog)
      ensures key in old(dog) ==> id == old(dog)[key]
      ensures key in old(dog) ==> cache.descriptors == old(cache.descriptors) && dog == old(dog)
      ensures key !in old(dog) ==> cache.descriptors == old(cache.descriptors) + [DogSpecialize(key)] && id == |old(cache.descriptors)|
      ensures Extends(cache.descriptors, old(cache.descriptors))
    {
      if key in dog {
        id := dog[key];
      } else {
        id := cache.QueueRenderPipeline(DogSpecialize(key));
        dog := dog[key := id];
      }
    }
  }

  /** All seven specialised pipelines are recorded: every later lookup reuses these ids. */
  predicate Complete(tfm: map<TfmKey, nat>, fdog: map<FDoGKey, nat>, dog: map<DoGKey, nat>) {
    && Eigenvector in tfm && Horizontal in tfm && Vertical in tfm
    && FDoGKey(true) in fdog && FDoGKey(false) in fdog
    && DoGKey(true) in dog && DoGKey(false) in dog
  }

  /** The id record the recorded ids make up, with the three fixed ids of `p`. */
  function Recorded(tfm: map<TfmKey, nat>, fdog: map<FDoGKey, nat>, dog: map<DoGKey, nat>, p: DoGPipelines): GaussianPipelineIds
    requires Complete(tfm, fdog, dog)
  {
    GaussianPipelineIds(
      p.rgba2labId,
      TfmPipelineIds(tfm[Eigenvector], tfm[Horizontal], tfm[Vertical]),
      StagePipelineIds(dog[DoGKey(true)], dog[DoGKey(false)]),
      StagePipelineIds(fdog[FDoGKey(true)], fdog[FDoGKey(false)]),
      p.aaId,
      p.blendId)
  }

  /**
   * The descriptors one view queues: those of the keys not yet recorded, in
   * the order the keys are looked up.
   */
  function Missing(tfm: map<TfmKey, nat>, fdog: map<FDoGKey, nat>, dog: map<DoGKey, nat>): seq<RenderPipelineDescriptor> {
    MissingTfm(tfm) + MissingFdog(fdog) + MissingDog(dog)
  }

  /** The TFM part of `Missing`: Eigenvector, Vertical, Horizontal. */
  function MissingTfm(tfm: map<TfmKey, nat>): seq<RenderPipelineDescriptor> {
    (if Eigenvector in tfm then [] else [TfmSpecialize(Eigenvector)])
      + (if Vertical in tfm then [] else [TfmSpecialize(Vertical)])
      + (if Horizontal in tfm then [] else [TfmSpecialize(Horizontal)])
  }

  /** The flow-guided part of `Missing`: first, then second. */
  function MissingFdog(fdog: map<FDoGKey, nat>): seq<RenderPipelineDescriptor> {
    (if FDoGKey(true) in fdog then [] else [FdogSpecialize(FDoGKey(true))])
      + (if FDoGKey(false) in fdog then [] else [FdogSpecialize(FDoGKey(false))])
  }

  /** The plain part of `Missing`: first, then second. */
  function MissingDog(dog: map<DoGKey, nat>): seq<RenderPipelineDescriptor> {
    (if DoGKey(true) in dog then [] else [DogSpecialize(DoGKey(true))])
      + (if DoGKey(false) in dog then [] else [DogSpecialize(DoGKey(false))])
  }

  /** Nothing is missing exactly when the tables are complete; otherwise each missing key adds one distinct descriptor. */
  lemma MissingIffIncomplete(tfm: map<TfmKey, nat>, fdog: map<FDoGKey, nat>, dog: map<DoGKey, nat>)
    ensures Missing(tfm, fdog, dog) == [] <==> Complete(tfm, fdog, dog)
    ensures |Missing(tfm, fdog, dog)| <= 7
    ensures tfm == map[] && fdog == map[] && dog == map[] ==> |Missing(tfm, fdog, dog)| == 7
  {
  }

  /** The descriptors the three per-table steps queue add up to `Missing`. */
  lemma MissingConcat(d0: seq<RenderPipelineDescriptor>, d1: seq<RenderPipelineDescriptor>, d2: seq<RenderPipelineDescriptor>,
                      d3: seq<RenderPipelineDescriptor>, tfm: map<TfmKey, nat>, fdog: map<FDoGKey, nat>, dog: map<DoGKey, nat>)
    requires d1 == d0 + MissingTfm(tfm) && d2 == d1 + MissingFdog(fdog) && d3 == d2 + MissingDog(dog)
    ensures d3 == d0 + Missing(tfm, fdog, dog)
  {
  }

  /** Every key recorded in the tables `tfm0`, `fdog0`, `dog0` is still recorded, with the same id. */
  predicate Keeps(tfm: map<TfmKey, nat>, fdog: map<FDoGKey, nat>, dog: map<DoGKey, nat>,
                  tfm0: map<TfmKey, nat>, fdog0: map<FDoGKey, nat>, dog0: map<DoGKey, nat>) {
    KeepsTfm(tfm, tfm0) && KeepsFdog(fdog, fdog0) && KeepsDog(dog, dog0)
  }

  predicate KeepsTfm(tfm: map<TfmKey, nat>, tfm0: map<TfmKey, nat>) {
    && (Eigenvector in tfm0 ==> Eigenvector in tfm && tfm[Eigenvector] == tfm0[Eigenvector])
    && (Vertical in tfm0 ==> Vertical in tfm && tfm[Vertical] == tfm0[Vertical])
    && (Horizontal in tfm0 ==> Horizontal in tfm && tfm[Horizontal] == tfm0[Horizontal])
  }

  predicate KeepsFdog(fdog: map<FDoGKey, nat>, fdog0: map<FDoGKey, nat>) {
    && (FDoGKey(true) in fdog0 ==> FDoGKey(true) in fdog && fdog[FDoGKey(true)] == fdog0[FDoGKey(true)])
    && (FDoGKey(false) in fdog0 ==> FDoGKey(false) in fdog && fdog[FDoGKey(false)] == fdog0[FDoGKey(false)])
  }

  predicate KeepsDog(dog: map<DoGKey, nat>, dog0: map<DoGKey, nat>) {
    && (DoGKey(true) in dog0 ==> DoGKey(true) in dog && dog[DoGKey(true)] == dog0[DoGKey(true)])
    && (DoGKey(false) in dog0 ==> DoGKey(false) in dog && dog[DoGKey(false)] == dog0[DoGKey(false)])
  }

  /**
   * Every key recorded in `tfm`, `fdog`, `dog` but not in `tfm0`, `fdog0`,
   * `dog0` got an id at or past `n`: a position queued after the first `n`
   * descriptors.
   */
  predicate Fresh(tfm: map<TfmKey, nat>, fdog: map<FDoGKey, nat>, dog: map<DoGKey, nat>,
                  tfm0: map<TfmKey, nat>, fdog0: map<FDoGKey, nat>, dog0: map<DoGKey, nat>, n: nat) {
    FreshTfm(tfm, tfm0, n) && FreshFdog(fdog, fdog0, n) && FreshDog(dog, dog0, n)
  }

  /** The per-table freshness bounds of one view's three steps combine into `Fresh` from the first. */
  lemma FreshCompose(tfm: map<TfmKey, nat>, fdog: map<FDoGKey, nat>, dog: map<DoGKey, nat>,
                     tfm0: map<TfmKey, nat>, fdog0: map<FDoGKey, nat>, dog0: map<DoGKey, nat>, n0: nat, n1: nat, n2: nat)
    requires n0 <= n1 <= n2
    requires FreshTfm(tfm, tfm0, n0) && FreshFdog(fdog, fdog0, n1) && FreshDog(dog, dog0, n2)
    ensures Fresh(tfm, fdog, dog, tfm0, fdog0, dog0, n0)
  {
  }

  predicate FreshTfm(tfm: map<TfmKey, nat>, tfm0: map<TfmKey, nat>, n: nat) {
    && (Eigenvector !in tfm0 && Eigenvector in tfm ==> n <= tfm[Eigenvector])
    && (Vertical !in tfm0 && Vertical in tfm ==> n <= tfm[Vertical])
    && (Horizontal !in tfm0 && Horizontal in tfm ==> n <= tfm[Horizontal])
  }

  predicate FreshFdog(fdog: map<FDoGKey, nat>, fdog0: map<FDoGKey, nat>, n: nat) {
    && (FDoGKey(true) !in fdog0 && FDoGKey(true) in fdog ==> n <= fdog[FDoGKey(true)])
    && (FDoGKey(false) !in fdog0 && FDoGKey(false) in fdog ==> n <= fdog[FDoGKey(false)])
  }

  predicate FreshDog(dog: map<DoGKey, nat>, dog0: map<DoGKey, nat>, n: nat) {
    && (DoGKey(true) !in dog0 && DoGKey(true) in dog ==> n <= dog[DoGKey(true)])
    && (DoGKey(false) !in dog0 && DoGKey(false) in dog ==> n <= dog[DoGKey(false)])
  }

  /** The queued descriptors only ever grow. */
  predicate Extends(longer: seq<RenderPipelineDescriptor>, shorter: seq<RenderPipelineDescriptor>) {
    |shorter| <= |longer| && longer[..|shorter|] == shorter
  }

  lemma ExtendsTransitive(a: seq<RenderPipelineDescriptor>, b: seq<RenderPipelineDescriptor>, c: seq<RenderPipelineDescriptor>)
    requires Extends(b, a) && Extends(c, b)
    ensures Extends(c, a)
  {
    assert c[..|a|] == c[..|b|][..|a|];
  }

  lemma ExtendsKeepsFixed(p: DoGPipelines, a: seq<RenderPipelineDescriptor>, b: seq<RenderPipelineDescriptor>)
    requires FixedPipelinesQueued(p, a) && Extends(b, a)
    ensures FixedPipelinesQueued(p, b)
  {
    assert b[p.rgba2labId] == b[..|a|][p.rgba2labId];
    assert b[p.aaId] == b[..|a|][p.aaId];
    assert b[p.blendId] == b[..|a|][p.blendId];
  }

  /** Once the tables are complete, the record they make up names the right descriptor for every field. */
  lemma RecordedDescribes(sp: SpecializedPipelines, cache: PipelineCache, p: DoGPipelines)
    requires sp.Valid(cache) && Complete(sp.tfm, sp.fdog, sp.dog) && FixedPipelinesQueued(p, cache.descriptors)
    ensures IdsDescribe(Recorded(sp.tfm, sp.fdog, sp.dog, p), p, cache.descriptors)
  {
  }

  /** The three TFM lookups of one view, in the order Eigenvector, Vertical, Horizontal. */
  method SpecializeTfmKeys(cache: PipelineCache, sp: SpecializedPipelines)
    returns (eigenvectorId: nat, verticalId: nat, horizontalId: nat)
    requires sp.Valid(cache)
    modifies sp`tfm, cache
    ensures sp.Valid(cache) && Extends(cache.descriptors, old(cache.descriptors))
    ensures cache.descriptors == old(cache.descriptors) + MissingTfm(old(sp.tfm))
    ensures FreshTfm(sp.tfm, old(sp.tfm), |old(cache.descriptors)|)
    ensures KeepsTfm(sp.tfm, old(sp.tfm)) && sp.fdog == old(sp.fdog) && sp.dog == old(sp.dog)
    ensures Eigenvector in sp.tfm && Vertical in sp.tfm && Horizontal in sp.tfm
    ensures eigenvectorId == sp.tfm[Eigenvector] && verticalId == sp.tfm[Vertical] && horizontalId == sp.tfm[Horizontal]
    ensures Eigenvector !in old(sp.tfm) ==> eigenvectorId == |old(cache.descriptors)|
    ensures old(Eigenvector in sp.tfm && Vertical in sp.tfm && Horizontal in sp.tfm) ==> sp.tfm == old(sp.tfm)
  {
    ghost var d0 := cache.descriptors;
    eigenvectorId := sp.SpecializeTfm(cache, Eigenvector);
    ghost var d1 := cache.descriptors;
    verticalId := sp.SpecializeTfm(cache, Vertical);
    ExtendsTransitive(d0, d1, cache.descriptors);
    ghost var d2 := cache.descriptors;
    horizontalId := sp.SpecializeTfm(cache, Horizontal);
    ExtendsTransitive(d0, d2, cache.descriptors);
  }

  /** The two flow-guided lookups of one view, first then second. */
  method SpecializeFdogKeys(cache: PipelineCache, sp: SpecializedPipelines) returns (first: nat, second: nat)
    requires sp.Valid(cache)
    modifies sp`fdog, cache
    ensures sp.Valid(cache) && Extends(cache.descriptors, old(cache.descriptors))
    ensures cache.descriptors == old(cache.descriptors) + MissingFdog(old(sp.fdog))
    ensures FreshFdog(sp.fdog, old(sp.fdog), |old(cache.descriptors)|)
    ensures KeepsFdog(sp.fdog, old(sp.fdog)) && sp.tfm == old(sp.tfm) && sp.dog == old(sp.dog)
    ensures FDoGKey(true) in sp.fdog && FDoGKey(false) in sp.fdog
    ensures first == sp.fdog[FDoGKey(true)] && second == sp.fdog[FDoGKey(false)]
    ensures old(FDoGKey(true) in sp.fdog && FDoGKey(false) in sp.fdog) ==> sp.fdog == old(sp.fdog)
  {
    ghost var d0 := cache.descriptors;
    first := sp.SpecializeFdog(cache, FDoGKey(true));
    ghost var d1 := cache.descriptors;
    second := sp.SpecializeFdog(cache, FDoGKey(false));
    ExtendsTransitive(d0, d1, cache.descriptors);
  }

  /** The two plain lookups of one view, first then second. */
  method SpecializeDogKeys(cache: PipelineCache, sp: SpecializedPipelines) returns (first: nat, second: nat)
    requires sp.Valid(cache)
    modifies sp`dog, cache
    ensures sp.Valid(cache) && Extends(cache.descriptors, old(cache.descriptors))
    ensures cache.descriptors == old(cache.descriptors) + MissingDog(old(sp.dog))
    ensures FreshDog(sp.dog, old(sp.dog), |old(cache.descriptors)|)
    ensures KeepsDog(sp.dog, old(sp.dog)) && sp.tfm == old(sp.tfm) && sp.fdog == old(sp.fdog)
    ensures DoGKey(true) in sp.dog && DoGKey(false) in sp.dog
    ensures first == sp.dog[DoGKey(true)] && second == sp.dog[DoGKey(false)]
    ensures old(DoGKey(true) in sp.dog && DoGKey(false) in sp.dog) ==> sp.dog == old(sp.dog)
  {
    ghost var d0 := cache.descriptors;
    first := sp.SpecializeDog(cache, DoGKey(true));
    ghost var d1 := cache.descriptors;
    second := sp.SpecializeDog(cache, DoGKey(false));
    ExtendsTransitive(d0, d1, cache.descriptors);
  }

  /**
   * The body of `prepare_gaussian_pipelines` for one view: the three fixed
   * ids, and the seven specialised ones looked up or queued key by key.
   */
  method SpecializeView(cache: PipelineCache, p: DoGPipelines, sp: SpecializedPipelines) returns (ids: GaussianPipelineIds)
    requires sp.Valid(cache)
    requires FixedPipelinesQueued(p, cache.descriptors)
    modifies sp, cache
    ensures sp.Valid(cache) && Extends(cache.descriptors, old(cache.descriptors))
    ensures FixedPipelinesQueued(p, cache.descriptors)
    ensures Complete(sp.tfm, sp.fdog, sp.dog) && ids == Recorded(sp.tfm, sp.fdog, sp.dog, p)
    ensures IdsDescribe(ids, p, cache.descriptors)
    ensures cache.descriptors == old(cache.descriptors) + Missing(old(sp.tfm), old(sp.fdog), old(sp.dog))
    ensures Keeps(sp.tfm, sp.fdog, sp.dog, old(sp.tfm), old(sp.fdog), old(sp.dog))
    ensures Fresh(sp.tfm, sp.fdog, sp.dog, old(sp.tfm), old(sp.fdog), old(sp.dog), |old(cache.descriptors)|)
    ensures old(Complete(sp.tfm, sp.fdog, sp.dog)) ==>
              cache.descriptors == old(cache.descriptors)
              && sp.tfm == old(sp.tfm) && sp.fdog == old(sp.fdog) && sp.dog == old(sp.dog)
              && ids == old(Recorded(sp.tfm, sp.fdog, sp.dog, p))
  {
    ghost var d0 := cache.descriptors;
    ghost var t0, f0, g0 := sp.tfm, sp.fdog, sp.dog;
    var rgb2labId := p.rgba2labId;
    var eigenvectorId, verticalId, horizontalId := SpecializeTfmKeys(cache, sp);
    ghost var d1 := cache.descriptors;
    var firstFdog, secondFdog := SpecializeFdogKeys(cache, sp);
    ExtendsTransitive(d0, d1, cache.descriptors);
    ghost var d2 := cache.descriptors;
    var firstDog, secondDog := SpecializeDogKeys(cache, sp);
    ExtendsTransitive(d0, d2, cache.descriptors);
    MissingConcat(d0, d1, d2, cache.descriptors, t0, f0, g0);
    FreshCompose(sp.tfm, sp.fdog, sp.dog, t0, f0, g0, |d0|, |d1|, |d2|);
    ExtendsKeepsFixed(p, d0, cache.descriptors);
    var aaId := p.aaId;
    var blendId := p.blendId;
    ids := GaussianPipelineIds(
      rgb2labId,
      TfmPipelineIds(eigenvectorId, horizontalId, verticalId),
      StagePipelineIds(firstDog, secondDog),
      StagePipelineIds(firstFdog, secondFdog),
      aaId,
      blendId);
    RecordedDescribes(sp, cache, p);
    if Complete(t0, f0, g0) {
      MissingIffIncomplete(t0, f0, g0);
    }
  }

  /** One insertion of the same id record on each of `vs`, in order. */
  function Tagged(vs: seq<View>, ids: GaussianPipelineIds): seq<IdsInsert> {
    seq(|vs|, k requires 0 <= k < |vs| => IdsInsert(vs[k].entity, ids))
  }

  lemma TaggedSnoc(vs: seq<View>, v: View, ids: GaussianPipelineIds)
    ensures Tagged(vs + [v], ids) == Tagged(vs, ids) + [IdsInsert(v.entity, ids)]
  {
  }

  /**
   * The state after serving the views `visited` (those with settings, in
   * order), starting from the queue `d0` and the tables `tfm0`, `fdog0`,
   * `dog0`: nothing changed while no view was served; after the first, the
   * tables are complete, what was missing is queued, and every served view
   * got the record the tables make up.
   */
  ghost predicate Served(cache: PipelineCache, p: DoGPipelines, sp: SpecializedPipelines, visited: seq<View>,
                         inserts: seq<IdsInsert>, d0: seq<RenderPipelineDescriptor>,
                         tfm0: map<TfmKey, nat>, fdog0: map<FDoGKey, nat>, dog0: map<DoGKey, nat>)
    reads sp, cache
  {
    && sp.Valid(cache) && Extends(cache.descriptors, d0)
    && FixedPipelinesQueued(p, cache.descriptors)
    && Keeps(sp.tfm, sp.fdog, sp.dog, tfm0, fdog0, dog0)
    && Fresh(sp.tfm, sp.fdog, sp.dog, tfm0, fdog0, dog0, |d0|)
    && (visited == [] ==>
          && inserts == [] && cache.descriptors == d0
          && sp.tfm == tfm0 && sp.fdog == fdog0 && sp.dog == dog0)
    && (visited != [] ==>
          && Complete(sp.tfm, sp.fdog, sp.dog)
          && inserts == Tagged(visited, Recorded(sp.tfm, sp.fdog, sp.dog, p))
          && cache.descriptors == d0 + Missing(tfm0, fdog0, dog0))
  }

  /** One iteration of `prepare_gaussian_pipelines` over a view with settings. */
  method ServeView(cache: PipelineCache, p: DoGPipelines, sp: SpecializedPipelines, ghost visited: seq<View>, v: View,
                   inserts: seq<IdsInsert>, ghost d0: seq<RenderPipelineDescriptor>,
                   ghost tfm0: map<TfmKey, nat>, ghost fdog0: map<FDoGKey, nat>, ghost dog0: map<DoGKey, nat>)
    returns (inserts': seq<IdsInsert>)
    requires Served(cache, p, sp, visited, inserts, d0, tfm0, fdog0, dog0)
    modifies sp, cache
    ensures Served(cache, p, sp, visited + [v], inserts', d0, tfm0, fdog0, dog0)
  {
    ghost var before := cache.descriptors;
    ghost var t1, f1, g1 := sp.tfm, sp.fdog, sp.dog;
    var ids := SpecializeView(cache, p, sp);
    ExtendsTransitive(d0, before, cache.descriptors);
    if visited != [] {
      assert Complete(t1, f1, g1);
      assert sp.tfm == t1 && sp.fdog == f1 && sp.dog == g1 && cache.descriptors == before;
    }
    TaggedSnoc(visited, v, ids);
    inserts' := inserts + [IdsInsert(v.entity, ids)];
  }

  /**
   * `prepare_gaussian_pipelines`: for every view with settings, asks the
   * three tables for the seven specialised pipelines and inserts one id
   * record. The first such view queues whatever is missing; every view gets
   * the same record, and each of its ids names the right descriptor.
   */
  method PrepareGaussianPipelines(cache: PipelineCache, p: DoGPipelines, sp: SpecializedPipelines, views: seq<View>)
    returns (inserts: seq<IdsInsert>)
    requires sp.Valid(cache)
    requires FixedPipelinesQueued(p, cache.descriptors)
    modifies sp, cache
    ensures sp.Valid(cache) && Extends(cache.descriptors, old(cache.descriptors))
    ensures FixedPipelinesQueued(p, cache.descriptors)
    ensures Select(views, WithSettings) == [] ==> inserts == []
    ensures Select(views, WithSettings) != [] ==>
      && Complete(sp.tfm, sp.fdog, sp.dog)
      && inserts == Tagged(Select(views, WithSettings), Recorded(sp.tfm, sp.fdog, sp.dog, p))
    ensures old(Complete(sp.tfm, sp.fdog, sp.dog)) ==> cache.descriptors == old(cache.descriptors)
    ensures Select(views, WithSettings) == [] ==>
      && cache.descriptors == old(cache.descriptors)
      && sp.tfm == old(sp.tfm) && sp.fdog == old(sp.fdog) && sp.dog == old(sp.dog)
    ensures Select(views, WithSettings) != [] ==>
      cache.descriptors == old(cache.descriptors) + Missing(old(sp.tfm), old(sp.fdog), old(sp.dog))
    ensures Keeps(sp.tfm, sp.fdog, sp.dog, old(sp.tfm), old(sp.fdog), old(sp.dog))
    ensures Fresh(sp.tfm, sp.fdog, sp.dog, old(sp.tfm), old(sp.fdog), old(sp.dog), |old(cache.descriptors)|)
  {
    ghost var d0, t0, f0, g0 := cache.descriptors, sp.tfm, sp.fdog, sp.dog;
    inserts := ServeViews(cache, p, sp, views, d0, t0, f0, g0);
    if Complete(t0, f0, g0) {
      MissingIffIncomplete(t0, f0, g0);
    }
  }

  /** The loop of `prepare_gaussian_pipelines` over all views, serving those with settings. */
  method ServeViews(cache: PipelineCache, p: DoGPipelines, sp: SpecializedPipelines, views: seq<View>,
                    ghost d0: seq<RenderPipelineDescriptor>,
                    ghost tfm0: map<TfmKey, nat>, ghost fdog0: map<FDoGKey, nat>, ghost dog0: map<DoGKey, nat>)
    returns (inserts: seq<IdsInsert>)
    requires Served(cache, p, sp, [], [], d0, tfm0, fdog0, dog0)
    modifies sp, cache
    ensures Served(cache, p, sp, Select(views, WithSettings), inserts, d0, tfm0, fdog0, dog0)
  {
    ghost var visited := [];
    inserts := [];
    for i := 0 to |views|
      invariant visited == Select(views[..i], WithSettings)
      invariant Served(cache, p, sp, visited, inserts, d0, tfm0, fdog0, dog0)
    {
      SelectStep(views, i, WithSettings);
      if Matches(WithSettings, views[i]) {
        inserts := ServeView(cache, p, sp, visited, views[i], inserts, d0, tfm0, fdog0, dog0);
        visited := visited + [views[i]];
      }
    }
    assert views[..|views|] == views;
  }
}
