/**
 * The scratch textures of the Gaussian variant (src/gaussian/textures.rs).
 * It requests the same seven textures per view as the full effect and also
 * attaches the bundled crosshatch image's texture. When that image is not
 * on the GPU yet, the system returns at the first view it has requested
 * textures for, so no view receives a component that frame.
 */
module GaussianTextures {
  import opened Wrappers
  import opened World
  import Textures

  /** The component a view receives: the seven scratch textures and the crosshatch texture. */
  datatype DoGTextures = DoGTextures(
    lab: Textures.CachedTexture,
    eigen: Textures.CachedTexture,
    horizontal: Textures.CachedTexture,
    vertical: Textures.CachedTexture,
    firstDog: Textures.CachedTexture,
    secondDog: Textures.CachedTexture,
    aa: Textures.CachedTexture,
    crosshatchTexture: nat)

  /** An insertion of a component on an entity. */
  datatype TexturesInsert = TexturesInsert(entity: nat, textures: DoGTextures)

  /** The full effect's insertions, each extended with the crosshatch texture. */
  function WithCrosshatch(s: seq<Textures.TexturesInsert>, crosshatch: nat): seq<TexturesInsert> {
    if s == [] then []
    else WithCrosshatch(s[..|s| - 1], crosshatch) + [Extend(s[|s| - 1], crosshatch)]
  }

  /** One insertion of the full effect, extended with the crosshatch texture. */
  function Extend(ins: Textures.TexturesInsert, crosshatch: nat): TexturesInsert {
    var t := ins.textures;
    TexturesInsert(ins.entity, DoGTextures(t.lab, t.eigen, t.horizontal, t.vertical, t.firstDog, t.secondDog, t.aa, crosshatch))
  }

  /** The seven scratch textures of a component, in field order. */
  function ScratchFields(t: DoGTextures): seq<Textures.CachedTexture> {
    [t.lab, t.eigen, t.horizontal, t.vertical, t.firstDog, t.secondDog, t.aa]
  }

  /**
   * Each view receives the same entity and the same seven scratch textures as
   * in the full effect, and the crosshatch texture besides.
   */
  lemma {:induction false} WithCrosshatchKeeps(s: seq<Textures.TexturesInsert>, crosshatch: nat)
    ensures |WithCrosshatch(s, crosshatch)| == |s|
    ensures forall k :: 0 <= k < |s| ==>
      && WithCrosshatch(s, crosshatch)[k].entity == s[k].entity
      && WithCrosshatch(s, crosshatch)[k].textures.crosshatchTexture == crosshatch
      && ScratchFields(WithCrosshatch(s, crosshatch)[k].textures) == Textures.Fields(s[k].textures)
  {
    if s != [] {
      WithCrosshatchKeeps(s[..|s| - 1], crosshatch);
    }
  }

  /** The requests made before the early return: the seven of the first visited camera view with a known size. */
  function RequestedBeforeReturn(views: seq<View>): seq<Textures.TextureDescriptor> {
    var sized := Select(views, SizedCamerasWithSettings);
    if sized == [] then [] else Textures.ScratchRequests(Textures.ViewExtent(sized[0]))
  }

  /** The insertions made while visiting `views` in order when the crosshatch image is present. */
  function Inserted(views: seq<View>, base: nat, crosshatch: nat): seq<TexturesInsert> {
    if views == [] then []
    else
      var init := views[..|views| - 1];
      var last := views[|views| - 1];
      Inserted(init, base, crosshatch)
        + (if Matches(SizedCamerasWithSettings, last)
           then
             var t := Textures.ScratchAt(base + |Textures.Requested(init)|, Textures.ViewExtent(last));
             [TexturesInsert(last.entity,
                DoGTextures(t.lab, t.eigen, t.horizontal, t.vertical, t.firstDog, t.secondDog, t.aa, crosshatch))]
           else [])
  }

  /** With the image present, the variant inserts what the full effect inserts, plus the crosshatch texture. */
  lemma {:induction false} InsertedExtendsFullEffect(views: seq<View>, base: nat, crosshatch: nat)
    ensures Inserted(views, base, crosshatch) == WithCrosshatch(Textures.Inserted(views, base), crosshatch)
  {
    if views != [] {
      var init := views[..|views| - 1];
      InsertedExtendsFullEffect(init, base, crosshatch);
      var s := Textures.Inserted(init, base);
      if Matches(SizedCamerasWithSettings, views[|views| - 1]) {
        var x := Textures.TexturesInsert(views[|views| - 1].entity,
          Textures.ScratchAt(base + |Textures.Requested(init)|, Textures.ViewExtent(views[|views| - 1])));
        assert Textures.Inserted(views, base) == s + [x];
        assert (s + [x])[..|s|] == s;
        assert WithCrosshatch(s + [x], crosshatch) == WithCrosshatch(s, crosshatch) + [Extend(x, crosshatch)];
        assert Inserted(views, base, crosshatch) == Inserted(init, base, crosshatch) + [Extend(x, crosshatch)];
      } else {
        assert Textures.Inserted(views, base) == s;
        assert Inserted(views, base, crosshatch) == Inserted(init, base, crosshatch);
      }
    }
  }

  /** The one-step form of `Inserted` the loop uses. */
  lemma InsertedStep(views: seq<View>, i: nat, base: nat, crosshatch: nat)
    requires i < |views|
    ensures Inserted(views[..i + 1], base, crosshatch)
         == Inserted(views[..i], base, crosshatch)
          + (if Matches(SizedCamerasWithSettings, views[i])
             then
               var t := Textures.ScratchAt(base + |Textures.Requested(views[..i])|, Textures.ViewExtent(views[i]));
               [TexturesInsert(views[i].entity,
                  DoGTextures(t.lab, t.eigen, t.horizontal, t.vertical, t.firstDog, t.secondDog, t.aa, crosshatch))]
             else [])
  {
    assert views[..i + 1][..i] == views[..i];
  }

  /**
   * `prepare_dog_textures` of the Gaussian variant. `views` are the render
   * world's entities in iteration order; `crosshatchImage` is what the
   * render assets hold for the bundled crosshatch handle.
   */
  method PrepareDogTextures(cache: Textures.TextureCache, crosshatchImage: Option<Textures.GpuImage>, views: seq<View>)
    returns (inserts: seq<TexturesInsert>)
    modifies cache
    ensures crosshatchImage.Some? ==>
      && cache.requests == old(cache.requests) + Textures.Requested(views)
      && inserts == Inserted(views, |old(cache.requests)|, crosshatchImage.value.texture)
    ensures crosshatchImage.None? ==>
      && inserts == []
      && cache.requests == old(cache.requests) + RequestedBeforeReturn(views)
  {
    ghost var base := |cache.requests|;
    inserts := [];
    for i := 0 to |views|
      invariant cache.requests == old(cache.requests) + Textures.Requested(views[..i])
      invariant crosshatchImage.Some? ==> inserts == Inserted(views[..i], base, crosshatchImage.value.texture)
      invariant crosshatchImage.None? ==> inserts == [] && Select(views[..i], SizedCamerasWithSettings) == []
    {
      Textures.RequestedStep(views, i);
      SelectStep(views, i, SizedCamerasWithSettings);
      if crosshatchImage.Some? {
        InsertedStep(views, i, base, crosshatchImage.value.texture);
      }
      if !Matches(CamerasWithSettings, views[i]) {
        continue;
      }
      var size := views[i].camera.value.physicalTargetSize;
      if size.None? {
        continue;
      }
      assert Textures.ViewExtent(views[i]) == Textures.TargetExtent(size.value);
      ghost var at := |cache.requests|;
      var t := Textures.GetScratchTextures(cache, Textures.TargetExtent(size.value));
      assert t == Textures.ScratchAt(at, Textures.ViewExtent(views[i]));
      if crosshatchImage.None? {
        SelectFirst(views, i, SizedCamerasWithSettings);
        Textures.RequestedCount(views[..i]);
        return;
      }
      var crosshatchTexture := crosshatchImage.value.texture;
      inserts := inserts + [TexturesInsert(views[i].entity,
        DoGTextures(t.lab, t.eigen, t.horizontal, t.vertical, t.firstDog, t.secondDog, t.aa, crosshatchTexture))];
    }
    assert views[..|views|] == views;
    Textures.RequestedCount(views);
  }

  /** Without the crosshatch image at most one view's seven requests are made, and only if some view has a size. */
  lemma MissingImageRequests(views: seq<View>)
    ensures |RequestedBeforeReturn(views)| == (if Select(views, SizedCamerasWithSettings) == [] then 0 else 7)
    ensures forall d :: d in RequestedBeforeReturn(views) ==> d.size.depthOrArrayLayers == 1 && d.mipLevelCount == 1
  {
  }
}
