/** The optional value used wherever the engine hands back an `Option`. */
module Wrappers {
  datatype Option<+T> = None | Some(value: T)
}

/**
 * The render-world entities that the prepare systems and the render node
 * iterate over. An entity is reduced to the components the queries of the
 * core filter on; a query is a filter over the world's entities, in
 * iteration order.
 */
module World {
  import opened Wrappers

  /** A camera's physical render-target size in pixels. */
  datatype UVec2 = UVec2(x: nat, y: nat)

  /** The extracted camera; its target size is unknown until the window exists. */
  datatype ExtractedCamera = ExtractedCamera(physicalTargetSize: Option<UVec2>)

  /**
   * One render-world entity and the components it carries. `dogSettings`
   * stands for the settings component of the plugin variant in use.
   */
  datatype View = View(
    entity: nat,
    extractedView: bool,
    dogSettings: bool,
    camera: Option<ExtractedCamera>,
    dogTextures: bool)

  /** The component filters of the queries in the core. */
  datatype Query =
    | WithSettings           // `Query<(Entity, &DoGSettings)>`
    | CamerasWithSettings    // `Query<(Entity, &ExtractedCamera), (With<ExtractedView>, With<DoGSettings>)>`
    | TexturedWithSettings   // `Query<(Entity, &DoGTextures), (With<ExtractedView>, With<DoGSettings>)>`
    | SizedCamerasWithSettings // the camera query above, past its `let Some(size) = camera.physical_target_size else { continue }` guard

  /** The camera's target size, when the entity has a camera that knows it. */
  function TargetSize(v: View): Option<UVec2> {
    if v.camera.Some? then v.camera.value.physicalTargetSize else None
  }

  /** Whether an entity has every component a query filters on. */
  predicate Matches(q: Query, v: View) {
    match q
    case WithSettings => v.dogSettings
    case CamerasWithSettings => v.extractedView && v.dogSettings && v.camera.Some?
    case TexturedWithSettings => v.extractedView && v.dogSettings && v.dogTextures
    case SizedCamerasWithSettings => v.extractedView && v.dogSettings && v.camera.Some? && TargetSize(v).Some?
  }

  /** The entities a query visits, in iteration order. */
  function Select(views: seq<View>, q: Query): (r: seq<View>)
    ensures |r| <= |views|
  {
    if views == [] then []
    else
      var last := views[|views| - 1];
      Select(views[..|views| - 1], q) + (if Matches(q, last) then [last] else [])
  }

  /** A query visits exactly the entities it accepts. */
  lemma {:induction false} SelectMembers(views: seq<View>, q: Query)
    ensures forall v :: v in Select(views, q) <==> v in views && Matches(q, v)
  {
    if views != [] {
      var init := views[..|views| - 1];
      SelectMembers(init, q);
      assert views == init + [views[|views| - 1]];
    }
  }

  /** A query over two runs of entities visits the first run, then the second. */
  lemma {:induction false} SelectConcat(a: seq<View>, b: seq<View>, q: Query)
    ensures Select(a + b, q) == Select(a, q) + Select(b, q)
    decreases |b|
  {
    if b == [] {
      assert a + b == a;
    } else {
      var b' := b[..|b| - 1];
      assert (a + b)[..|a + b| - 1] == a + b';
      assert (a + b)[|a + b| - 1] == b[|b| - 1];
      SelectConcat(a, b', q);
    }
  }

  /** The one-step form the loops over a query use. */
  lemma SelectStep(views: seq<View>, i: nat, q: Query)
    requires i < |views|
    ensures Select(views[..i + 1], q)
         == Select(views[..i], q) + (if Matches(q, views[i]) then [views[i]] else [])
  {
    assert views[..i + 1][..i] == views[..i];
  }

  /** The first entity a query accepts comes first in what it visits. */
  lemma SelectFirst(views: seq<View>, i: nat, q: Query)
    requires i < |views| && Select(views[..i], q) == [] && Matches(q, views[i])
    ensures Select(views, q) != [] && Select(views, q)[0] == views[i]
  {
    SelectStep(views, i, q);
    assert views == views[..i + 1] + views[i + 1..];
    SelectConcat(views[..i + 1], views[i + 1..], q);
  }
}
