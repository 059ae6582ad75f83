/**
 * Per-view scratch textures (src/textures.rs). Every camera view that has
 * settings asks the engine's texture cache for seven textures of its target
 * size, in a fixed order, and the seven are attached to the view as one
 * `DoGTextures` component. A view whose camera does not know its size yet is
 * skipped.
 *
 * The texture cache is an allocator seen from outside: it logs every request,
 * and the texture it hands back is known by the position of its request.
 */
module Textures {
  import opened Wrappers
  import opened World

  datatype TextureDimension = D1 | D2 | D3

  datatype TextureFormat = Rgba8UnormSrgb | Rgba8Unorm | Bgra8UnormSrgb

  /** `TextureFormat::bevy_default()` on the desktop targets. */
  const BEVY_DEFAULT_FORMAT := Rgba8UnormSrgb

  datatype TextureUsage = CopySrc | CopyDst | TextureBinding | StorageBinding | RenderAttachment

  datatype Extent3d = Extent3d(width: nat, height: nat, depthOrArrayLayers: nat)

  datatype TextureDescriptor = TextureDescriptor(
    name: string,
    size: Extent3d,
    mipLevelCount: nat,
    sampleCount: nat,
    dimension: TextureDimension,
    format: TextureFormat,
    usage: set<TextureUsage>)

  /** A texture handed out by the cache: its id and the request it answers. */
  datatype CachedTexture = CachedTexture(id: nat, descriptor: TextureDescriptor)

  /** A bundled image once it is on the GPU, reduced to the id of its texture. */
  datatype GpuImage = GpuImage(texture: nat)

  /** The engine's texture cache, seen as an allocator that logs its requests. */
  class TextureCache {
    /** Every request made so far; a texture's id is the position of its request. */
    var requests: seq<TextureDescriptor>

    constructor ()
      ensures requests == []
    {
      requests := [];
    }

    /** `TextureCache::get`: a texture answering `d`. */
    method Get(d: TextureDescriptor) returns (t: CachedTexture)
      modifies this`requests
      ensures requests == old(requests) + [d]
      ensures t == CachedTexture(|old(requests)|, d)
    {
      t := CachedTexture(|requests|, d);
      requests := requests + [d];
    }
  }

  /** The extent of a view's textures: the camera's target size, one layer deep. */
  function TargetExtent(size: UVec2): Extent3d {
    Extent3d(size.x, size.y, 1)
  }

  /** The extent of a view's textures; only consulted for views whose size is known. */
  function ViewExtent(v: View): Extent3d {
    match TargetSize(v)
    case Some(size) => TargetExtent(size)
    case None => Extent3d(0, 0, 1)
  }

  /** The descriptor of a scratch texture with the given name and extent. */
  function ScratchDescriptor(name: string, extent: Extent3d): TextureDescriptor {
    TextureDescriptor(name, extent, 1, 1, D2, BEVY_DEFAULT_FORMAT, {TextureBinding, RenderAttachment})
  }

  /** The names of the seven scratch textures, in the order they are requested. */
  const SCRATCH_NAMES: seq<string> := [
    "lab color texture",
    "Eigenvector Texture",
    "Horizontal Blur Pass Texture",
    "Vertical Blur Pass Texture",
    "first dog texture",
    "second dog texture",
    "AA Pass Texture"]

  /** The seven requests one view makes, in order. */
  function ScratchRequests(extent: Extent3d): seq<TextureDescriptor> {
    [ScratchDescriptor("lab color texture", extent),
     ScratchDescriptor("Eigenvector Texture", extent),
     ScratchDescriptor("Horizontal Blur Pass Texture", extent),
     ScratchDescriptor("Vertical Blur Pass Texture", extent),
     ScratchDescriptor("first dog texture", extent),
     ScratchDescriptor("second dog texture", extent),
     ScratchDescriptor("AA Pass Texture", extent)]
  }

  /** Whether a descriptor has the one shape every scratch texture shares. */
  predicate ScratchShaped(d: TextureDescriptor, extent: Extent3d) {
    && d.size == extent
    && d.mipLevelCount == 1
    && d.sampleCount == 1
    && d.dimension == D2
    && d.format == BEVY_DEFAULT_FORMAT
    && d.usage == {TextureBinding, RenderAttachment}
  }

  /** The seven requests are the named textures in order, all of one extent and shape. */
  lemma ScratchRequestsShape(extent: Extent3d)
    ensures |ScratchRequests(extent)| == |SCRATCH_NAMES| == 7
    ensures forall j :: 0 <= j < 7 ==>
      ScratchRequests(extent)[j].name == SCRATCH_NAMES[j] && ScratchShaped(ScratchRequests(extent)[j], extent)
  {
  }

  /** The component a view receives. */
  datatype DoGTextures = DoGTextures(
    lab: CachedTexture,
    eigen: CachedTexture,
    horizontal: CachedTexture,
    vertical: CachedTexture,
    firstDog: CachedTexture,
    secondDog: CachedTexture,
    aa: CachedTexture)

  /** The textures of a component in field order. */
  function Fields(t: DoGTextures): seq<CachedTexture> {
    [t.lab, t.eigen, t.horizontal, t.vertical, t.firstDog, t.secondDog, t.aa]
  }

  /** The component made of the answers to the seven requests starting at position `base`. */
  function ScratchAt(base: nat, extent: Extent3d): DoGTextures {
    var r := ScratchRequests(extent);
    DoGTextures(
      CachedTexture(base, r[0]), CachedTexture(base + 1, r[1]), CachedTexture(base + 2, r[2]),
      CachedTexture(base + 3, r[3]), CachedTexture(base + 4, r[4]), CachedTexture(base + 5, r[5]),
      CachedTexture(base + 6, r[6]))
  }

  /** The fields of the component answer the seven requests in order: lab first, anti-alias last. */
  lemma ScratchAtAnswersInOrder(base: nat, extent: Extent3d)
    ensures forall j :: 0 <= j < 7 ==>
      Fields(ScratchAt(base, extent))[j] == CachedTexture(base + j, ScratchRequests(extent)[j])
  {
  }

  /** The seven `get` calls for one view, in source order. */
  method GetScratchTextures(cache: TextureCache, extent: Extent3d) returns (t: DoGTextures)
    modifies cache
    ensures cache.requests == old(cache.requests) + ScratchRequests(extent)
    ensures t == ScratchAt(|old(cache.requests)|, extent)
  {
    var lab := cache.Get(ScratchDescriptor("lab color texture", extent));
    var eigen := cache.Get(ScratchDescriptor("Eigenvector Texture", extent));
    var horizontal := cache.Get(ScratchDescriptor("Horizontal Blur Pass Texture", extent));
    var vertical := cache.Get(ScratchDescriptor("Vertical Blur Pass Texture", extent));
    var firstDog := cache.Get(ScratchDescriptor("first dog texture", extent));
    var secondDog := cache.Get(ScratchDescriptor("second dog texture", extent));
    var aa := cache.Get(ScratchDescriptor("AA Pass Texture", extent));
    t := DoGTextures(lab, eigen, horizontal, vertical, firstDog, secondDog, aa);
  }

  /** An insertion of a component on an entity. */
  datatype TexturesInsert = TexturesInsert(entity: nat, textures: DoGTextures)

  /** The requests made while visiting `views` in order: seven per visited camera view with a known size. */
  function Requested(views: seq<View>): seq<TextureDescriptor> {
    if views == [] then []
    else
      var last := views[|views| - 1];
      Requested(views[..|views| - 1])
        + (if Matches(SizedCamerasWithSettings, last) then ScratchRequests(ViewExtent(last)) else [])
  }

  /** The insertions made while visiting `views` in order, when the cache's log starts at `base`. */
  function Inserted(views: seq<View>, base: nat): seq<TexturesInsert> {
    if views == [] then []
    else
      var init := views[..|views| - 1];
      var last := views[|views| - 1];
      Inserted(init, base)
        + (if Matches(SizedCamerasWithSettings, last)
           then [TexturesInsert(last.entity, ScratchAt(base + |Requested(init)|, ViewExtent(last)))]
           else [])
  }

  /** Seven requests are made per visited camera view with a known size. */
  lemma {:induction false} RequestedCount(views: seq<View>)
    ensures |Requested(views)| == 7 * |Select(views, SizedCamerasWithSettings)|
  {
    if views != [] {
      RequestedCount(views[..|views| - 1]);
    }
  }

  /** The one-step form of `Requested` the loops use. */
  lemma RequestedStep(views: seq<View>, i: nat)
    requires i < |views|
    ensures Requested(views[..i + 1])
         == Requested(views[..i]) + (if Matches(SizedCamerasWithSettings, views[i]) then ScratchRequests(ViewExtent(views[i])) else [])
  {
    assert views[..i + 1][..i] == views[..i];
  }

  /** The one-step form of `Inserted` the loop uses. */
  lemma InsertedStep(views: seq<View>, i: nat, base: nat)
    requires i < |views|
    ensures Inserted(views[..i + 1], base)
         == Inserted(views[..i], base)
          + (if Matches(SizedCamerasWithSettings, views[i])
             then [TexturesInsert(views[i].entity, ScratchAt(base + |Requested(views[..i])|, ViewExtent(views[i])))]
             else [])
  {
    assert views[..i + 1][..i] == views[..i];
  }

  /**
   * `prepare_dog_textures`: seven textures for every camera view with
   * settings and a known size. `views` are the render world's entities in
   * iteration order; the query visits those with the filtered components.
   */
  method PrepareDogTextures(cache: TextureCache, views: seq<View>) returns (inserts: seq<TexturesInsert>)
    modifies cache
    ensures cache.requests == old(cache.requests) + Requested(views)
    ensures inserts == Inserted(views, |old(cache.requests)|)
  {
    ghost var base := |cache.requests|;
    inserts := [];
    for i := 0 to |views|
      invariant cache.requests == old(cache.requests) + Requested(views[..i])
      invariant inserts == Inserted(views[..i], base)
    {
      RequestedStep(views, i);
      InsertedStep(views, i, base);
      if !Matches(CamerasWithSettings, views[i]) {
        continue;
      }
      var size := views[i].camera.value.physicalTargetSize;
      if size.None? {
        continue;
      }
      assert ViewExtent(views[i]) == TargetExtent(size.value);
      ghost var at := |cache.requests|;
      var textures := GetScratchTextures(cache, TargetExtent(size.value));
      assert textures == ScratchAt(at, ViewExtent(views[i]));
      inserts := inserts + [TexturesInsert(views[i].entity, textures)];
    }
    assert views[..|views|] == views;
  }

  /**
   * Each visited camera view with a known size receives exactly one component, in visiting
   * order; a view without one receives none.
   */
  lemma {:induction false} InsertedEntities(views: seq<View>, base: nat)
    ensures |Inserted(views, base)| == |Select(views, SizedCamerasWithSettings)|
    ensures forall k :: 0 <= k < |Inserted(views, base)| ==>
      Inserted(views, base)[k].entity == Select(views, SizedCamerasWithSettings)[k].entity
  {
    if views != [] {
      InsertedEntities(views[..|views| - 1], base);
    }
  }

  /**
   * The k-th visited camera view with a known size receives the answers to requests
   * `base + 7k` to `base + 7k + 6`, all of that view's own target extent.
   */
  lemma {:induction false} InsertedTextures(views: seq<View>, base: nat)
    ensures |Inserted(views, base)| == |Select(views, SizedCamerasWithSettings)|
    ensures forall k :: 0 <= k < |Inserted(views, base)| ==>
      Inserted(views, base)[k].textures
        == ScratchAt(base + 7 * k, ViewExtent(Select(views, SizedCamerasWithSettings)[k]))
  {
    InsertedEntities(views, base);
    if views != [] {
      InsertedTextures(views[..|views| - 1], base);
      RequestedCount(views[..|views| - 1]);
    }
  }

  /**
   * The request log is the seven requests of each visited camera view with a known size,
   * one view after the other, each at that view's own target extent.
   */
  lemma {:induction false} RequestedBlocks(views: seq<View>)
    ensures |Requested(views)| == 7 * |Select(views, SizedCamerasWithSettings)|
    ensures forall k :: 0 <= k < |Select(views, SizedCamerasWithSettings)| ==>
      Requested(views)[7 * k .. 7 * k + 7]
        == ScratchRequests(ViewExtent(Select(views, SizedCamerasWithSettings)[k]))
  {
    RequestedCount(views);
    if views != [] {
      var init := views[..|views| - 1];
      RequestedBlocks(init);
      forall k | 0 <= k < |Select(views, SizedCamerasWithSettings)|
        ensures Requested(views)[7 * k .. 7 * k + 7]
          == ScratchRequests(ViewExtent(Select(views, SizedCamerasWithSettings)[k]))
      {
        if k < |Select(init, SizedCamerasWithSettings)| {
          assert Requested(views)[7 * k .. 7 * k + 7] == Requested(init)[7 * k .. 7 * k + 7];
        }
      }
    }
  }

  /** Visiting two runs of views makes the first run's requests, then the second's. */
  lemma {:induction false} RequestedConcat(a: seq<View>, b: seq<View>)
    ensures Requested(a + b) == Requested(a) + Requested(b)
    decreases |b|
  {
    if b == [] {
      assert a + b == a;
    } else {
      var b' := b[..|b| - 1];
      assert (a + b)[..|a + b| - 1] == a + b';
      RequestedConcat(a, b');
    }
  }

  /** Visiting two runs of views inserts for the first run, then for the second, whose ids follow. */
  lemma {:induction false} InsertedConcat(a: seq<View>, b: seq<View>, base: nat)
    ensures Inserted(a + b, base) == Inserted(a, base) + Inserted(b, base + |Requested(a)|)
    decreases |b|
  {
    if b == [] {
      assert a + b == a;
    } else {
      var b' := b[..|b| - 1];
      assert (a + b)[..|a + b| - 1] == a + b';
      InsertedConcat(a, b', base);
      RequestedConcat(a, b');
    }
  }

  /**
   * A view the query does not visit, or whose size is unknown, is skipped and
   * the views after it are still served, with the ids they would have had
   * without it.
   */
  lemma SkipKeepsLaterViews(a: seq<View>, v: View, b: seq<View>, base: nat)
    requires !Matches(SizedCamerasWithSettings, v)
    ensures Inserted(a + [v] + b, base) == Inserted(a, base) + Inserted(b, base + |Requested(a)|)
    ensures Requested(a + [v] + b) == Requested(a) + Requested(b)
  {
    assert [v][..0] == [];
    assert Requested([v]) == [];
    assert Inserted([v], base + |Requested(a)|) == [];
    RequestedConcat(a, [v]);
    InsertedConcat(a, [v], base);
    RequestedConcat(a + [v], b);
    InsertedConcat(a + [v], b, base);
  }

  /** Every entity that receives a component is a camera view with settings and a known size. */
  lemma OnlyQualifyingViewsServed(views: seq<View>, base: nat)
    ensures forall ins :: ins in Inserted(views, base) ==>
      exists v :: v in views && v.entity == ins.entity && v.extractedView && v.dogSettings && TargetSize(v).Some?
  {
    var served := Select(views, SizedCamerasWithSettings);
    InsertedEntities(views, base);
    SelectMembers(views, SizedCamerasWithSettings);
    forall ins | ins in Inserted(views, base)
      ensures exists v :: v in views && v.entity == ins.entity && v.extractedView && v.dogSettings && TargetSize(v).Some?
    {
      var k :| 0 <= k < |Inserted(views, base)| && Inserted(views, base)[k] == ins;
      assert served[k] in served;
    }
  }
}
