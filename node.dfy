/**
 * The render node of the effect (src/node.rs). Each frame, for each view, it
 * records a fixed sequence of full-screen passes chosen by two integer
 * toggles; each pass reads some buffers and writes exactly one. The per-view
 * group-1 bind groups that some passes add come from `prepare_dog_bind_groups`.
 *
 * A pass is reduced to a record of its kind, its label, the pipeline it
 * binds, the buffers it samples and the buffer it renders to; the node's
 * recording context is a log of such records.
 */
module Node {
  import opened Wrappers
  import opened World
  import Settings
  import Pipeline

  /**
   * The buffers of a frame: the view target's source and destination, the
   * seven scratch textures, and the bundled crosshatch image.
   */
  datatype Buffer = Source | Lab | Eigen | Horizontal | Vertical | FirstDog | SecondDog | Aa | Destination | Crosshatch

  /** The scratch textures: nothing but an earlier pass of the same frame fills them. */
  predicate IsScratch(b: Buffer) {
    b != Source && b != Destination && b != Crosshatch
  }

  // ---------------------------------------------------------------------------
  // Per-view bind groups

  /** A bind group: its label, its layout, the buffers in its texture slots in order, and its sampler. */
  datatype BindGroup = BindGroup(name: string, layout: Pipeline.BindGroupLayout, textures: seq<Buffer>, sampler: Pipeline.SamplerDescriptor)

  /** `DoGBindGroups`: the group-1 bind groups of one view. */
  datatype DoGBindGroups = DoGBindGroups(tfmBindGroup: BindGroup, aaBlendBindGroup: BindGroup, blendBindGroup: BindGroup)

  /** The crosshatch sampler: repeating and linearly filtered. */
  const CROSS_HATCH_SAMPLER := Pipeline.SamplerDescriptor("common sampler", Pipeline.Repeat, Pipeline.Repeat, Pipeline.ClampToEdge, Pipeline.Linear, Pipeline.Linear)

  /** The flow-map sampler: clamped, nearest-neighbour. */
  const POINT_CLAMP_SAMPLER := Pipeline.SamplerDescriptor("common sampler", Pipeline.ClampToEdge, Pipeline.ClampToEdge, Pipeline.ClampToEdge, Pipeline.Nearest, Pipeline.Nearest)

  /** The bind groups every view receives: the flow map, and the two blend inputs. */
  const VIEW_BIND_GROUPS := DoGBindGroups(
    BindGroup("TFM bind group", Pipeline.TFM_LAYOUT, [Vertical], POINT_CLAMP_SAMPLER),
    BindGroup("blend texture bind group", Pipeline.BLEND_LAYOUT, [Aa, Crosshatch], CROSS_HATCH_SAMPLER),
    BindGroup("blend texture bind group", Pipeline.BLEND_LAYOUT, [SecondDog, Crosshatch], CROSS_HATCH_SAMPLER))

  /** Each bind group fills exactly the texture slots of its layout. */
  lemma ViewBindGroupsFitLayouts()
    ensures forall g :: g in [VIEW_BIND_GROUPS.tfmBindGroup, VIEW_BIND_GROUPS.aaBlendBindGroup, VIEW_BIND_GROUPS.blendBindGroup] ==>
      |g.textures| == Pipeline.TextureSlots(g.layout.entries)
  {
    Pipeline.LayoutTextureSlots();
  }

  /** A component insertion of the bind groups on an entity. */
  datatype BindGroupsInsert = BindGroupsInsert(entity: nat, bindGroups: DoGBindGroups)

  /**
   * `prepare_dog_bind_groups`: nothing while the crosshatch image is not on
   * the GPU; otherwise the same bind groups for every view that has textures
   * and settings, in visiting order.
   */
  method PrepareDogBindGroups(crosshatchLoaded: bool, views: seq<View>) returns (inserts: seq<BindGroupsInsert>)
    ensures !crosshatchLoaded ==> inserts == []
    ensures crosshatchLoaded ==> |inserts| == |Select(views, TexturedWithSettings)|
    ensures crosshatchLoaded ==> forall k :: 0 <= k < |inserts| ==>
      inserts[k] == BindGroupsInsert(Select(views, TexturedWithSettings)[k].entity, VIEW_BIND_GROUPS)
  {
    if !crosshatchLoaded {
      return [];
    }
    inserts := [];
    for i := 0 to |views|
      invariant |inserts| == |Select(views[..i], TexturedWithSettings)|
      invariant forall k :: 0 <= k < |inserts| ==>
        inserts[k] == BindGroupsInsert(Select(views[..i], TexturedWithSettings)[k].entity, VIEW_BIND_GROUPS)
    {
      SelectStep(views, i, TexturedWithSettings);
      if !Matches(TexturedWithSettings, views[i]) {
        continue;
      }
      var tfmBindGroup := BindGroup("TFM bind group", Pipeline.TFM_LAYOUT, [Vertical], POINT_CLAMP_SAMPLER);
      var aaBlendBindGroup := BindGroup("blend texture bind group", Pipeline.BLEND_LAYOUT, [Aa, Crosshatch], CROSS_HATCH_SAMPLER);
      var blendBindGroup := BindGroup("blend texture bind group", Pipeline.BLEND_LAYOUT, [SecondDog, Crosshatch], CROSS_HATCH_SAMPLER);
      inserts := inserts + [BindGroupsInsert(views[i].entity, DoGBindGroups(tfmBindGroup, aaBlendBindGroup, blendBindGroup))];
    }
    assert views[..|views|] == views;
  }

  // ---------------------------------------------------------------------------
  // Pass records and the schedule

  datatype PassKind =
    | Rgb2LabPass | EigenvectorPass | HorizontalPass | VerticalPass
    | FirstFdogPass | SecondFdogPass | FirstDogPass | SecondDogPass
    | AaPass | BlendPass

  /** One recorded render pass: what it is, its label, its pipeline, what it samples and what it renders to. */
  datatype Pass = Pass(kind: PassKind, name: string, pipeline: nat, inputs: set<Buffer>, output: Buffer)

  /** The buffers in a bind group's texture slots. */
  function Bound(g: BindGroup): set<Buffer> {
    set b | b in g.textures
  }

  function Rgb2LabRecord(ids: Pipeline.GaussianPipelineIds): Pass {
    Pass(Rgb2LabPass, "rgb2lab_pass", ids.rgb2lab, {Source}, Lab)
  }

  /** The three flow-map passes; the second is labelled like the first and binds the horizontal pipeline. */
  function TfmRecords(ids: Pipeline.GaussianPipelineIds): seq<Pass> {
    [Pass(EigenvectorPass, "eigenvector_pass", ids.tfm.eigenvector, {Lab}, Eigen),
     Pass(HorizontalPass, "eigenvector_pass", ids.tfm.horizontal, {Eigen}, Horizontal),
     Pass(VerticalPass, "vertical_pass", ids.tfm.vertical, {Horizontal}, Vertical)]
  }

  /** The two flow-guided passes; both add the flow-map bind group. */
  function FdogRecords(ids: Pipeline.GaussianPipelineIds, bg: DoGBindGroups): seq<Pass> {
    [Pass(FirstFdogPass, "first fdog pass", ids.fdog.first, {Lab} + Bound(bg.tfmBindGroup), FirstDog),
     Pass(SecondFdogPass, "second fdog pass", ids.fdog.second, {FirstDog} + Bound(bg.tfmBindGroup), SecondDog)]
  }

  /** The two plain difference-of-Gaussians passes. */
  function DogRecords(ids: Pipeline.GaussianPipelineIds): seq<Pass> {
    [Pass(FirstDogPass, "first dog pass", ids.dog.first, {Lab}, FirstDog),
     Pass(SecondDogPass, "second dog pass", ids.dog.second, {FirstDog}, SecondDog)]
  }

  /** The anti-alias pass; it adds the flow-map bind group. */
  function AaRecord(ids: Pipeline.GaussianPipelineIds, bg: DoGBindGroups): Pass {
    Pass(AaPass, "aa pass", ids.aa, {SecondDog} + Bound(bg.tfmBindGroup), Aa)
  }

  /** The blend pass; its group 1 is the anti-aliased blend inputs when anti-aliasing is on. */
  function BlendRecord(ids: Pipeline.GaussianPipelineIds, bg: DoGBindGroups, aaOn: bool): Pass {
    Pass(BlendPass, "blend_pass", ids.blend,
         {Source} + Bound(if aaOn then bg.aaBlendBindGroup else bg.blendBindGroup), Destination)
  }

  /** The passes one ready frame records for toggles `p`. */
  function Schedule(p: Settings.PassesSettings, ids: Pipeline.GaussianPipelineIds, bg: DoGBindGroups): seq<Pass> {
    var aaOn := p.aa == 1;
    var tfmOn := p.tfm == 1;
    [Rgb2LabRecord(ids)]
      + (if aaOn && tfmOn then TfmRecords(ids) else [])
      + (if tfmOn then FdogRecords(ids, bg) else DogRecords(ids))
      + (if aaOn then [AaRecord(ids, bg)] else [])
      + [BlendRecord(ids, bg, aaOn)]
  }

  /** The kinds of a run of passes, in order. */
  function Kinds(s: seq<Pass>): seq<PassKind> {
    seq(|s|, i requires 0 <= i < |s| => s[i].kind)
  }

  // ---------------------------------------------------------------------------
  // Recording

  /** The recording context: the passes begun so far, in order. */
  class RenderContext {
    var passes: seq<Pass>

    constructor ()
      ensures passes == []
    {
      passes := [];
    }

    /** Begins a render pass, sets its pipeline and bind groups, and draws the full-screen triangle. */
    method RecordPass(p: Pass)
      modifies this`passes
      ensures passes == old(passes) + [p]
    {
      passes := passes + [p];
    }
  }

  /** How a run of the node ends. */
  datatype RunResult = Ok | Panicked

  /** All ten pipelines of a view have been built. */
  predicate AllReady(ids: Pipeline.GaussianPipelineIds, ready: set<nat>) {
    && ids.rgb2lab in ready
    && ids.tfm.eigenvector in ready && ids.tfm.vertical in ready && ids.tfm.horizontal in ready
    && ids.fdog.first in ready && ids.fdog.second in ready
    && ids.dog.first in ready && ids.dog.second in ready
    && ids.aa in ready && ids.blend in ready
  }

  /** The passes of a ready frame, recorded block by block as the node's `run` issues them. */
  method RecordPasses(ctx: RenderContext, p: Settings.PassesSettings, ids: Pipeline.GaussianPipelineIds, bg: DoGBindGroups)
    modifies ctx
    ensures ctx.passes == old(ctx.passes) + Schedule(p, ids, bg)
  {
    ghost var before := ctx.passes;
    var aaOn := p.aa == 1;
    var tfmOn := p.tfm == 1;
    ctx.RecordPass(Rgb2LabRecord(ids));
    ghost var head := [Rgb2LabRecord(ids)];
    if aaOn && tfmOn {
      var tfm := TfmRecords(ids);
      ctx.RecordPass(tfm[0]);
      ctx.RecordPass(tfm[1]);
      ctx.RecordPass(tfm[2]);
      assert ctx.passes == before + head + tfm;
    }
    head := head + (if aaOn && tfmOn then TfmRecords(ids) else []);
    assert ctx.passes == before + head;
    var gaussian := if tfmOn then FdogRecords(ids, bg) else DogRecords(ids);
    ctx.RecordPass(gaussian[0]);
    ctx.RecordPass(gaussian[1]);
    assert ctx.passes == before + head + gaussian;
    head := head + gaussian;
    if aaOn {
      ctx.RecordPass(AaRecord(ids, bg));
    }
    head := head + (if aaOn then [AaRecord(ids, bg)] else []);
    assert ctx.passes == before + head;
    ctx.RecordPass(BlendRecord(ids, bg, aaOn));
  }

  /**
   * `DoGNode::run` for one view. `ready` holds the ids of the pipelines the
   * cache has finished building; `viewUniformsBound` and `settingsBound` say
   * whether the two uniform buffers have a binding this frame.
   */
  method Run(ctx: RenderContext, p: Settings.PassesSettings, ids: Pipeline.GaussianPipelineIds, bg: DoGBindGroups,
             ready: set<nat>, viewUniformsBound: bool, settingsBound: bool)
    returns (r: RunResult)
    modifies ctx
    ensures r == (if ids.rgb2lab in ready then Ok else Panicked)
    ensures ctx.passes == old(ctx.passes)
      + (if AllReady(ids, ready) && viewUniformsBound && settingsBound then Schedule(p, ids, bg) else [])
  {
    // The state of the rgb2lab pipeline is unwrapped, which panics unless it is built.
    if ids.rgb2lab !in ready {
      return Panicked;
    }
    if !AllReady(ids, ready) {
      return Ok;
    }
    if !viewUniformsBound {
      return Ok;
    }
    if !settingsBound {
      return Ok;
    }
    RecordPasses(ctx, p, ids, bg);
    return Ok;
  }

  // ---------------------------------------------------------------------------
  // Properties of the schedule

  /** The pass sequence for each of the four toggle combinations. */
  lemma SchedulePerToggles(p: Settings.PassesSettings, ids: Pipeline.GaussianPipelineIds, bg: DoGBindGroups)
    ensures p.aa != 1 && p.tfm != 1 ==>
      Kinds(Schedule(p, ids, bg)) == [Rgb2LabPass, FirstDogPass, SecondDogPass, BlendPass]
    ensures p.aa != 1 && p.tfm == 1 ==>
      Kinds(Schedule(p, ids, bg)) == [Rgb2LabPass, FirstFdogPass, SecondFdogPass, BlendPass]
    ensures p.aa == 1 && p.tfm != 1 ==>
      Kinds(Schedule(p, ids, bg)) == [Rgb2LabPass, FirstDogPass, SecondDogPass, AaPass, BlendPass]
    ensures p.aa == 1 && p.tfm == 1 ==>
      Kinds(Schedule(p, ids, bg)) == [Rgb2LabPass, EigenvectorPass, HorizontalPass, VerticalPass,
                                      FirstFdogPass, SecondFdogPass, AaPass, BlendPass]
  {
  }

  /** The first pass converts the source to Lab; the last blends into the destination. */
  lemma ScheduleEnds(p: Settings.PassesSettings, ids: Pipeline.GaussianPipelineIds, bg: DoGBindGroups)
    ensures var s := Schedule(p, ids, bg);
      && s[0] == Pass(Rgb2LabPass, "rgb2lab_pass", ids.rgb2lab, {Source}, Lab)
      && s[|s| - 1].kind == BlendPass && s[|s| - 1].pipeline == ids.blend && s[|s| - 1].output == Destination
      && (forall i :: 0 <= i < |s| - 1 ==> s[i].output != Destination && s[i].kind != BlendPass)
  {
  }

  /** Each buffer is rendered to at most once a frame. */
  lemma ScheduleWritesOnce(p: Settings.PassesSettings, ids: Pipeline.GaussianPipelineIds, bg: DoGBindGroups)
    ensures var s := Schedule(p, ids, bg);
      forall i, j :: 0 <= i < j < |s| ==> s[i].output != s[j].output
  {
  }

  /** Whether a pass of the given kind occurs. */
  predicate Occurs(s: seq<Pass>, k: PassKind) {
    k in Kinds(s)
  }

  /**
   * The flow-map chain runs exactly when both toggles are 1; it takes Lab
   * to Eigen to Horizontal to Vertical, and its middle pass binds the
   * horizontal pipeline.
   */
  lemma FlowMapChain(p: Settings.PassesSettings, ids: Pipeline.GaussianPipelineIds, bg: DoGBindGroups)
    ensures Occurs(Schedule(p, ids, bg), EigenvectorPass) <==> p.aa == 1 && p.tfm == 1
    ensures Occurs(Schedule(p, ids, bg), VerticalPass) <==> p.aa == 1 && p.tfm == 1
    ensures p.aa == 1 && p.tfm == 1 ==>
      var s := Schedule(p, ids, bg);
      && s[1].inputs == {Lab} && s[1].output == Eigen && s[1].pipeline == ids.tfm.eigenvector
      && s[2].inputs == {Eigen} && s[2].output == Horizontal && s[2].pipeline == ids.tfm.horizontal
      && s[3].inputs == {Horizontal} && s[3].output == Vertical && s[3].pipeline == ids.tfm.vertical
  {
    SchedulePerToggles(p, ids, bg);
  }

  /**
   * Exactly one family of Gaussian passes runs: the flow-guided one when
   * `tfm` is 1, the plain one otherwise.
   */
  lemma OneGaussianFamily(p: Settings.PassesSettings, ids: Pipeline.GaussianPipelineIds, bg: DoGBindGroups)
    ensures Occurs(Schedule(p, ids, bg), FirstFdogPass) <==> p.tfm == 1
    ensures Occurs(Schedule(p, ids, bg), SecondFdogPass) <==> p.tfm == 1
    ensures Occurs(Schedule(p, ids, bg), FirstDogPass) <==> p.tfm != 1
    ensures Occurs(Schedule(p, ids, bg), SecondDogPass) <==> p.tfm != 1
  {
    SchedulePerToggles(p, ids, bg);
    var k := Kinds(Schedule(p, ids, bg));
    if p.tfm == 1 {
      assert FirstDogPass !in k && SecondDogPass !in k;
    } else {
      assert FirstFdogPass !in k && SecondFdogPass !in k;
    }
  }

  /**
   * The Gaussian family runs right after the flow-map chain (or right after
   * the Lab conversion) and takes Lab to FirstDog to SecondDog with the
   * pipelines of the family the `tfm` toggle selects.
   */
  lemma GaussianFamilyBuffers(p: Settings.PassesSettings, ids: Pipeline.GaussianPipelineIds, bg: DoGBindGroups)
    ensures var s := Schedule(p, ids, bg);
      var f := if p.aa == 1 && p.tfm == 1 then 4 else 1;
      && f + 1 < |s|
      && Lab in s[f].inputs && s[f].output == FirstDog
      && FirstDog in s[f + 1].inputs && s[f + 1].output == SecondDog
      && s[f].pipeline == (if p.tfm == 1 then ids.fdog.first else ids.dog.first)
      && s[f + 1].pipeline == (if p.tfm == 1 then ids.fdog.second else ids.dog.second)
  {
  }

  /** The anti-alias pass runs exactly when `aa` is 1, and takes SecondDog to Aa. */
  lemma AntiAliasIffToggle(p: Settings.PassesSettings, ids: Pipeline.GaussianPipelineIds, bg: DoGBindGroups)
    ensures Occurs(Schedule(p, ids, bg), AaPass) <==> p.aa == 1
    ensures p.aa == 1 ==>
      var s := Schedule(p, ids, bg);
      && |s| >= 2 && s[|s| - 2].kind == AaPass && s[|s| - 2].pipeline == ids.aa
      && SecondDog in s[|s| - 2].inputs && s[|s| - 2].output == Aa
  {
    SchedulePerToggles(p, ids, bg);
  }

  /** With the bind groups every view receives, the blend pass reads the source, the crosshatch and the last filtered image. */
  lemma BlendInputs(p: Settings.PassesSettings, ids: Pipeline.GaussianPipelineIds)
    ensures var s := Schedule(p, ids, VIEW_BIND_GROUPS);
      s[|s| - 1].inputs == {Source, Crosshatch} + (if p.aa == 1 then {Aa} else {SecondDog})
  {
  }

  /** The default toggles select the four-pass plain schedule. */
  lemma DefaultTogglesSchedule(ids: Pipeline.GaussianPipelineIds, bg: DoGBindGroups)
    ensures Kinds(Schedule(Settings.DefaultPasses(), ids, bg)) == [Rgb2LabPass, FirstDogPass, SecondDogPass, BlendPass]
  {
    SchedulePerToggles(Settings.DefaultPasses(), ids, bg);
  }

  // ---------------------------------------------------------------------------
  // Write-before-read

  /** Some pass before position `i` renders to `b`. */
  predicate WrittenBefore(s: seq<Pass>, i: nat, b: Buffer) {
    exists j :: 0 <= j < i && j < |s| && s[j].output == b
  }

  /** The (pass, buffer) pairs where a pass samples a scratch texture no earlier pass of the frame rendered to. */
  function Hazards(s: seq<Pass>): set<(nat, Buffer)> {
    set i: nat, b: Buffer | i < |s| && b in s[i].inputs && IsScratch(b) && !WrittenBefore(s, i, b) :: (i, b)
  }

  /** Passes that sample nothing unwritten add no hazard; one hazard per unwritten input otherwise. */
  lemma HazardsAt(s: seq<Pass>, i: nat, b: Buffer)
    ensures (i, b) in Hazards(s) <==> i < |s| && b in s[i].inputs && IsScratch(b) && !WrittenBefore(s, i, b)
  {
  }

  /** With both toggles on, the flow map is rendered before the passes that sample it. */
  lemma HazardsBothOn(p: Settings.PassesSettings, ids: Pipeline.GaussianPipelineIds)
    requires p.aa == 1 && p.tfm == 1
    ensures Hazards(Schedule(p, ids, VIEW_BIND_GROUPS)) == {}
  {
    var s := Schedule(p, ids, VIEW_BIND_GROUPS);
    assert Bound(VIEW_BIND_GROUPS.tfmBindGroup) == {Vertical};
    SchedulePerToggles(p, ids, VIEW_BIND_GROUPS);
    forall i: nat, b: Buffer
      ensures (i, b) !in Hazards(s)
    {
      HazardsAt(s, i, b);
      if i < |s| && b in s[i].inputs && IsScratch(b) {
        // Lab, Eigen, Horizontal, Vertical, FirstDog, SecondDog and Aa are rendered in that order.
        var w := match b
          case Lab => 0 case Eigen => 1 case Horizontal => 2 case Vertical => 3
          case FirstDog => 4 case SecondDog => 5 case _ => 6;
        assert w < i && s[w].output == b;
      }
    }
  }

  /** With both toggles off, no pass samples the flow map. */
  lemma HazardsBothOff(p: Settings.PassesSettings, ids: Pipeline.GaussianPipelineIds)
    requires p.aa != 1 && p.tfm != 1
    ensures Hazards(Schedule(p, ids, VIEW_BIND_GROUPS)) == {}
  {
    var s := Schedule(p, ids, VIEW_BIND_GROUPS);
    assert Bound(VIEW_BIND_GROUPS.tfmBindGroup) == {Vertical};
    SchedulePerToggles(p, ids, VIEW_BIND_GROUPS);
    forall i: nat, b: Buffer
      ensures (i, b) in Hazards(s) <==> false
    {
      HazardsAt(s, i, b);
      if i < |s| && b in s[i].inputs && IsScratch(b) {
        if i > 0 && s[i - 1].output == b {
          assert WrittenBefore(s, i, b);
        }
      }
    }
  }

  /** With `tfm` alone on, both flow-guided passes sample the flow map, which no pass of the frame rendered. */
  lemma HazardsFlowGuidedOnly(p: Settings.PassesSettings, ids: Pipeline.GaussianPipelineIds)
    requires p.aa != 1 && p.tfm == 1
    ensures Hazards(Schedule(p, ids, VIEW_BIND_GROUPS)) == {(1, Vertical), (2, Vertical)}
  {
    var s := Schedule(p, ids, VIEW_BIND_GROUPS);
    assert Bound(VIEW_BIND_GROUPS.tfmBindGroup) == {Vertical};
    SchedulePerToggles(p, ids, VIEW_BIND_GROUPS);
    forall i: nat, b: Buffer
      ensures (i, b) in Hazards(s) <==> (i == 1 || i == 2) && b == Vertical
    {
      HazardsAt(s, i, b);
      if i < |s| && b in s[i].inputs && IsScratch(b) {
        if i > 0 && s[i - 1].output == b {
          assert WrittenBefore(s, i, b);
        }
      }
    }
  }

  /** With `aa` alone on, the anti-alias pass samples the flow map, which no pass of the frame rendered. */
  lemma HazardsAntiAliasOnly(p: Settings.PassesSettings, ids: Pipeline.GaussianPipelineIds)
    requires p.aa == 1 && p.tfm != 1
    ensures Hazards(Schedule(p, ids, VIEW_BIND_GROUPS)) == {(3, Vertical)}
  {
    var s := Schedule(p, ids, VIEW_BIND_GROUPS);
    assert Bound(VIEW_BIND_GROUPS.tfmBindGroup) == {Vertical};
    SchedulePerToggles(p, ids, VIEW_BIND_GROUPS);
    forall i: nat, b: Buffer
      ensures (i, b) in Hazards(s) <==> i == 3 && b == Vertical
    {
      HazardsAt(s, i, b);
      if i < |s| && b in s[i].inputs && IsScratch(b) {
        if i > 0 && s[i - 1].output == b {
          assert WrittenBefore(s, i, b);
        }
      }
    }
  }

  /**
   * With the bind groups every view receives, every scratch texture a pass
   * samples was rendered earlier in the same frame when the two toggles
   * agree. With `tfm` alone on, both flow-guided passes sample the flow map
   * (Vertical), which no pass of the frame rendered; with `aa` alone on, the
   * anti-alias pass does.
   */
  lemma HazardsPerToggles(p: Settings.PassesSettings, ids: Pipeline.GaussianPipelineIds)
    ensures p.aa == 1 && p.tfm == 1 ==> Hazards(Schedule(p, ids, VIEW_BIND_GROUPS)) == {}
    ensures p.aa != 1 && p.tfm != 1 ==> Hazards(Schedule(p, ids, VIEW_BIND_GROUPS)) == {}
    ensures p.aa != 1 && p.tfm == 1 ==> Hazards(Schedule(p, ids, VIEW_BIND_GROUPS)) == {(1, Vertical), (2, Vertical)}
    ensures p.aa == 1 && p.tfm != 1 ==> Hazards(Schedule(p, ids, VIEW_BIND_GROUPS)) == {(3, Vertical)}
  {
    if p.aa == 1 && p.tfm == 1 {
      HazardsBothOn(p, ids);
    } else if p.aa != 1 && p.tfm != 1 {
      HazardsBothOff(p, ids);
    } else if p.tfm == 1 {
      HazardsFlowGuidedOnly(p, ids);
    } else {
      HazardsAntiAliasOnly(p, ids);
    }
  }

  /** The frame is free of read-before-write hazards exactly when the two toggles agree. */
  lemma HazardFreeIffTogglesAgree(p: Settings.PassesSettings, ids: Pipeline.GaussianPipelineIds)
    ensures Hazards(Schedule(p, ids, VIEW_BIND_GROUPS)) == {} <==> ((p.aa == 1) == (p.tfm == 1))
  {
    HazardsPerToggles(p, ids);
  }
}
