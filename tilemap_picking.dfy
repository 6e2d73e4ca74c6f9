/**
 * The tilemap picking backend (src/utils/tilemap_picker_backend.rs).
 *
 * For every pointer that has a location: choose the first active camera
 * rendering to the pointer's target, unproject the pointer into world
 * space, then walk the visible tilemaps in iteration order collecting at
 * most one hit each, until a hit tile blocks lower layers; emit one
 * PointerHits event carrying the camera's order.
 *
 * Engine and library calls whose code is not part of this model are the
 * fields of an Engine value, taken as arbitrary total functions.
 */
module TilemapPicking {
  import opened Wrappers
  import opened WorldGen

  type PointerId = nat

  datatype Vec2 = Vec2(x: real, y: real)

  /** A camera's render target before and after resolving the primary window. */
  datatype RenderTarget = RenderTarget(id: nat)
  datatype NormalizedRenderTarget = NormalizedRenderTarget(id: nat)

  /** Where a pointer is: the render target it is over and its viewport position. */
  datatype Location = Location(target: NormalizedRenderTarget, position: Vec2)

  datatype Pointer = Pointer(id: PointerId, location: Option<Location>)

  /** The parts of a camera entity the backend reads itself. */
  datatype CameraView = CameraView(entity: Entity, isActive: bool, target: RenderTarget, order: int, near: real)

  /**
   * The parts of a tilemap entity the backend reads itself; its size, grid
   * size, map type, storage and full transform are reached by the engine
   * calls through the entity.
   */
  datatype TilemapView = TilemapView(entity: Entity, translationZ: real, viewVisible: bool)

  datatype Pickable = Pickable(shouldBlockLower: bool, isHoverable: bool)

  /** The tile components the backend queries: visibility and an optional Pickable. */
  datatype TileComponents = TileComponents(visible: bool, pickable: Option<Pickable>)

  datatype HitData = HitData(camera: Entity, depth: real)
  datatype Pick = Pick(entity: Entity, hit: HitData)
  datatype PointerHits = PointerHits(pointer: PointerId, picks: seq<Pick>, order: real)

  /**
   * The library calls of the backend:
   * `RenderTarget::normalize` with the primary window (total once a window is given),
   * `Camera::viewport_to_world_2d`,
   * the tilemap's inverse transform applied to a world point (`compute_matrix().inverse()`),
   * `TilePos::from_world_pos`, `TileStorage::get`, and the tile component query.
   */
  datatype Engine = Engine(
    normalize: (RenderTarget, Entity) -> NormalizedRenderTarget,
    viewportToWorld2d: (CameraView, Vec2) -> Option<Vec2>,
    inverseTransform: (TilemapView, Vec2) -> Vec2,
    fromWorldPos: (TilemapView, Vec2) -> Option<TilePos>,
    storageGet: (TilemapView, TilePos) -> Option<Entity>,
    tileQuery: Entity -> Option<TileComponents>)

  // ---------------------------------------------------------------------
  // Camera selection

  /** Active, and rendering to `target` once the single primary window is substituted. */
  predicate CameraMatches(engine: Engine, cam: CameraView, windows: seq<Entity>, target: NormalizedRenderTarget)
    ensures CameraMatches(engine, cam, windows, target) ==> cam.isActive && |windows| == 1
  {
    cam.isActive && |windows| == 1 && engine.normalize(cam.target, windows[0]) == target
  }

  /** Index of the first camera in iteration order that matches `target`. */
  function FirstCamera(engine: Engine, cameras: seq<CameraView>, windows: seq<Entity>, target: NormalizedRenderTarget)
    : (r: Option<nat>)
    ensures r.Some? ==> r.value < |cameras| && CameraMatches(engine, cameras[r.value], windows, target)
    ensures r.Some? ==> forall j :: 0 <= j < r.value ==> !CameraMatches(engine, cameras[j], windows, target)
    ensures r.None? <==> forall j :: 0 <= j < |cameras| ==> !CameraMatches(engine, cameras[j], windows, target)
  {
    if cameras == [] then None
    else if CameraMatches(engine, cameras[0], windows, target) then Some(0)
    else
      match FirstCamera(engine, cameras[1..], windows, target)
      case None => None
      case Some(i) => Some(i + 1)
  }

  /** Without exactly one primary window no camera is ever chosen. */
  lemma NoCameraWithoutSingleWindow(engine: Engine, cameras: seq<CameraView>, windows: seq<Entity>, target: NormalizedRenderTarget)
    requires |windows| != 1
    ensures FirstCamera(engine, cameras, windows, target) == None
  {
  }

  /** The `filter(is_active).find(..)` over the camera query. */
  method SelectCamera(engine: Engine, cameras: seq<CameraView>, windows: seq<Entity>, target: NormalizedRenderTarget)
    returns (r: Option<nat>)
    ensures r.Some? ==> r.value < |cameras| && cameras[r.value].isActive
    ensures r == FirstCamera(engine, cameras, windows, target)
  {
    for i := 0 to |cameras|
      invariant forall j :: 0 <= j < i ==> !CameraMatches(engine, cameras[j], windows, target)
    {
      if cameras[i].isActive {
        var matches := |windows| == 1 && engine.normalize(cameras[i].target, windows[0]) == target;
        if matches {
          return Some(i);
        }
      }
    }
    return None;
  }

  // ---------------------------------------------------------------------
  // Hits on one tilemap

  /** The cursor offset applied before mapping into tilemap space. */
  function Nudge(cursor: Vec2): Vec2
  {
    Vec2(cursor.x + 0.0, cursor.y - 4.0)
  }

  /**
   * The hit a tilemap yields for the cursor, ignoring blocking: the tile
   * under the cursor, if it resolves, is stored, is found by the tile
   * query and is visible; its depth is `-near - z`.
   */
  function HitOf(engine: Engine, cam: CameraView, cursor: Vec2, t: TilemapView): (r: Option<Pick>)
    ensures r.Some? ==> r.value.hit == HitData(cam.entity, -cam.near - t.translationZ)
    ensures r.Some? ==> engine.tileQuery(r.value.entity).Some? && engine.tileQuery(r.value.entity).value.visible
    ensures var pos := engine.fromWorldPos(t, engine.inverseTransform(t, Nudge(cursor)));
            r.Some? <==>
              pos.Some? && engine.storageGet(t, pos.value).Some? &&
              engine.tileQuery(engine.storageGet(t, pos.value).value).Some? &&
              engine.tileQuery(engine.storageGet(t, pos.value).value).value.visible
    ensures var pos := engine.fromWorldPos(t, engine.inverseTransform(t, Nudge(cursor)));
            r.Some? ==> r.value.entity == engine.storageGet(t, pos.value).value
  {
    var inMap := engine.inverseTransform(t, Nudge(cursor));
    match engine.fromWorldPos(t, inMap)
    case None => None
    case Some(pos) =>
      match engine.storageGet(t, pos)
      case None => None
      case Some(e) =>
        match engine.tileQuery(e)
        case None => None
        case Some(c) =>
          if !c.visible then None
          else Some(Pick(e, HitData(cam.entity, -cam.near - t.translationZ)))
  }

  /** `pck.is_some_and(|p| p.should_block_lower)` for the picked tile. */
  predicate Blocks(engine: Engine, e: Entity)
    ensures Blocks(engine, e) ==> engine.tileQuery(e).Some? && engine.tileQuery(e).value.pickable.Some?
  {
    match engine.tileQuery(e)
    case None => false
    case Some(c) => c.pickable.Some? && c.pickable.value.shouldBlockLower
  }

  // ---------------------------------------------------------------------
  // Keeping the present values of a sequence of options

  /** The values present in `s`, in order. */
  function Somes<T>(s: seq<Option<T>>): (r: seq<T>)
    ensures |r| <= |s|
  {
    if s == [] then []
    else
      var last := s[|s| - 1];
      Somes(s[..|s| - 1]) + (if last.Some? then [last.value] else [])
  }

  lemma {:induction false} SomesCons<T>(s: seq<Option<T>>)
    requires s != []
    ensures Somes(s) == (if s[0].Some? then [s[0].value] else []) + Somes(s[1..])
    decreases |s|
  {
    if |s| > 1 {
      var init := s[..|s| - 1];
      SomesCons(init);
      assert init[1..] == s[1..][..|s| - 2];
      assert init[0] == s[0];
    }
  }

  lemma SomesSnoc<T>(s: seq<Option<T>>, x: Option<T>)
    ensures Somes(s + [x]) == Somes(s) + (if x.Some? then [x.value] else [])
  {
  }

  /** The positions of `s` that hold a value, in increasing order. */
  function SomePositions<T>(s: seq<Option<T>>): seq<nat>
  {
    if s == [] then []
    else SomePositions(s[..|s| - 1]) + (if s[|s| - 1].Some? then [|s| - 1] else [])
  }

  /**
   * Each value of `Somes(s)` comes from its own position of `s`, in
   * increasing order, and every present value of `s` is kept.
   */
  lemma {:induction false} SomesOrigin<T>(s: seq<Option<T>>)
    ensures var idx := SomePositions(s);
            |idx| == |Somes(s)| &&
            (forall k, l :: 0 <= k < l < |idx| ==> idx[k] < idx[l]) &&
            (forall k :: 0 <= k < |idx| ==> idx[k] < |s| && s[idx[k]] == Some(Somes(s)[k])) &&
            (forall i :: 0 <= i < |s| && s[i].Some? ==> i in idx)
    decreases |s|
  {
    if s != [] {
      var init := s[..|s| - 1];
      SomesOrigin(init);
      assert forall i :: 0 <= i < |init| ==> init[i] == s[i];
    }
  }

  // ---------------------------------------------------------------------
  // The blocking fold over tilemaps

  /**
   * The `filter(visible).filter_map(..)` over the tilemaps, threading the
   * `blocked` flag: once set, every later tilemap yields nothing.
   */
  function Picks(engine: Engine, cam: CameraView, cursor: Vec2, tilemaps: seq<TilemapView>, blocked: bool)
    : (r: seq<Pick>)
    ensures |r| <= |tilemaps|
    ensures blocked ==> r == []
    ensures forall k :: 0 <= k < |r| ==> r[k].hit.camera == cam.entity
  {
    if tilemaps == [] then []
    else if !tilemaps[0].viewVisible || blocked then Picks(engine, cam, cursor, tilemaps[1..], blocked)
    else
      match HitOf(engine, cam, cursor, tilemaps[0])
      case None => Picks(engine, cam, cursor, tilemaps[1..], blocked)
      case Some(p) => [p] + Picks(engine, cam, cursor, tilemaps[1..], Blocks(engine, p.entity))
  }

  /** What each tilemap yields on its own: nothing if it is not visible, else its hit. */
  function TileHits(engine: Engine, cam: CameraView, cursor: Vec2, tilemaps: seq<TilemapView>): seq<Option<Pick>>
  {
    seq(|tilemaps|, i requires 0 <= i < |tilemaps| =>
      if tilemaps[i].viewVisible then HitOf(engine, cam, cursor, tilemaps[i]) else None)
  }

  /** Every hit the visible tilemaps yield, in order, as if nothing blocked. */
  function AllHits(engine: Engine, cam: CameraView, cursor: Vec2, tilemaps: seq<TilemapView>): seq<Pick>
  {
    Somes(TileHits(engine, cam, cursor, tilemaps))
  }

  /** The hits up to and including the first one that blocks lower layers. */
  function CutAfterFirstBlocker(engine: Engine, hits: seq<Pick>): (r: seq<Pick>)
    ensures r <= hits
    ensures forall k :: 0 <= k < |r| - 1 ==> !Blocks(engine, r[k].entity)
    ensures |r| < |hits| ==> |r| > 0 && Blocks(engine, r[|r| - 1].entity)
  {
    if hits == [] then []
    else if Blocks(engine, hits[0].entity) then [hits[0]]
    else [hits[0]] + CutAfterFirstBlocker(engine, hits[1..])
  }

  /**
   * The fold keeps exactly the unblocked hits up to and including the
   * first blocking one: blocking only truncates, never reorders or skips.
   */
  lemma {:induction false} PicksAreCutHits(engine: Engine, cam: CameraView, cursor: Vec2, tilemaps: seq<TilemapView>)
    ensures Picks(engine, cam, cursor, tilemaps, false) == CutAfterFirstBlocker(engine, AllHits(engine, cam, cursor, tilemaps))
    decreases |tilemaps|
  {
    if tilemaps != [] {
      var rest := tilemaps[1..];
      PicksAreCutHits(engine, cam, cursor, rest);
      var h := HitOf(engine, cam, cursor, tilemaps[0]);
      var all := AllHits(engine, cam, cursor, tilemaps);
      var restAll := AllHits(engine, cam, cursor, rest);
      var hits := TileHits(engine, cam, cursor, tilemaps);
      assert hits[1..] == TileHits(engine, cam, cursor, rest);
      SomesCons(hits);
      if tilemaps[0].viewVisible && h.Some? {
        assert all == [h.value] + restAll;
        assert all[1..] == restAll;
        assert Picks(engine, cam, cursor, tilemaps, false)
            == [h.value] + Picks(engine, cam, cursor, rest, Blocks(engine, h.value.entity));
        if Blocks(engine, h.value.entity) {
          assert CutAfterFirstBlocker(engine, all) == [h.value];
        } else {
          assert CutAfterFirstBlocker(engine, all) == [h.value] + CutAfterFirstBlocker(engine, restAll);
        }
      } else {
        assert all == restAll;
        assert Picks(engine, cam, cursor, tilemaps, false) == Picks(engine, cam, cursor, rest, false);
      }
    }
  }

  /** Only the last recorded hit can be on a blocking tile. */
  lemma BlockingHitIsLast(engine: Engine, cam: CameraView, cursor: Vec2, tilemaps: seq<TilemapView>)
    ensures var r := Picks(engine, cam, cursor, tilemaps, false);
            forall k :: 0 <= k < |r| - 1 ==> !Blocks(engine, r[k].entity)
  {
  }

  /** A tilemap that is not visible or yields no tile adds nothing and keeps `blocked`. */
  lemma SkippedTilemap(engine: Engine, cam: CameraView, cursor: Vec2, t: TilemapView, rest: seq<TilemapView>, blocked: bool)
    requires !t.viewVisible || HitOf(engine, cam, cursor, t).None?
    ensures Picks(engine, cam, cursor, [t] + rest, blocked) == Picks(engine, cam, cursor, rest, blocked)
  {
  }

  /**
   * Every recorded hit comes from its own visible tilemap, in tilemap
   * order, and carries the camera and the depth `-near - z` of that
   * tilemap.
   */
  lemma PicksOrigin(engine: Engine, cam: CameraView, cursor: Vec2, tilemaps: seq<TilemapView>)
    returns (idx: seq<nat>)
    ensures var r := Picks(engine, cam, cursor, tilemaps, false);
            |idx| == |r| &&
            (forall k, l :: 0 <= k < l < |idx| ==> idx[k] < idx[l]) &&
            (forall k :: 0 <= k < |idx| ==>
               idx[k] < |tilemaps| && tilemaps[idx[k]].viewVisible &&
               HitOf(engine, cam, cursor, tilemaps[idx[k]]) == Some(r[k]) &&
               r[k].hit == HitData(cam.entity, -cam.near - tilemaps[idx[k]].translationZ))
  {
    PicksAreCutHits(engine, cam, cursor, tilemaps);
    var hits := TileHits(engine, cam, cursor, tilemaps);
    SomesOrigin(hits);
    var r := Picks(engine, cam, cursor, tilemaps, false);
    var all := SomePositions(hits);
    idx := all[..|r|];
    forall k | 0 <= k < |idx|
      ensures idx[k] < |tilemaps| && tilemaps[idx[k]].viewVisible &&
              HitOf(engine, cam, cursor, tilemaps[idx[k]]) == Some(r[k]) &&
              r[k].hit == HitData(cam.entity, -cam.near - tilemaps[idx[k]].translationZ)
    {
      var i := all[k];
      assert r[k] == AllHits(engine, cam, cursor, tilemaps)[k];
      assert hits[i] == Some(r[k]);
      assert tilemaps[i].viewVisible && HitOf(engine, cam, cursor, tilemaps[i]) == Some(r[k]);
    }
  }

  /**
   * Two stacked visible tilemaps that both yield a hit: the lower one is
   * reported only when the upper tile does not block.
   */
  lemma TwoLayerOcclusion(engine: Engine, cam: CameraView, cursor: Vec2, upper: TilemapView, lower: TilemapView)
    requires upper.viewVisible && lower.viewVisible
    requires HitOf(engine, cam, cursor, upper).Some? && HitOf(engine, cam, cursor, lower).Some?
    ensures var hu := HitOf(engine, cam, cursor, upper).value;
            var hl := HitOf(engine, cam, cursor, lower).value;
            Picks(engine, cam, cursor, [upper, lower], false) ==
              if Blocks(engine, hu.entity) then [hu] else [hu, hl]
  {
  }

  /** The tilemap loop of the backend, with its running `blocked` flag. */
  method CollectPicks(engine: Engine, cam: CameraView, cursor: Vec2, tilemaps: seq<TilemapView>)
    returns (picks: seq<Pick>)
    ensures picks == Picks(engine, cam, cursor, tilemaps, false)
  {
    picks := [];
    var blocked := false;
    for i := 0 to |tilemaps|
      invariant picks + Picks(engine, cam, cursor, tilemaps[i..], blocked) == Picks(engine, cam, cursor, tilemaps, false)
    {
      assert tilemaps[i..][1..] == tilemaps[i + 1..];
      var t := tilemaps[i];
      if t.viewVisible && !blocked {
        var inMap := engine.inverseTransform(t, Nudge(cursor));
        var pos := engine.fromWorldPos(t, inMap);
        if pos.Some? {
          var picked := engine.storageGet(t, pos.value);
          if picked.Some? {
            var tile := engine.tileQuery(picked.value);
            if tile.Some? && tile.value.visible {
              blocked := tile.value.pickable.Some? && tile.value.pickable.value.shouldBlockLower;
              var depth := -cam.near - t.translationZ;
              picks := picks + [Pick(picked.value, HitData(cam.entity, depth))];
            }
          }
        }
      }
    }
    assert tilemaps[|tilemaps|..] == [];
  }

  // ---------------------------------------------------------------------
  // Events

  /** The event one pointer produces, if any. */
  function PointerEvent(engine: Engine, p: Pointer, cameras: seq<CameraView>, windows: seq<Entity>, tilemaps: seq<TilemapView>)
    : (r: Option<PointerHits>)
    ensures p.location.None? ==> r.None?
    ensures r.Some? ==> r.value.pointer == p.id
  {
    match p.location
    case None => None
    case Some(loc) =>
      match FirstCamera(engine, cameras, windows, loc.target)
      case None => None
      case Some(i) =>
        match engine.viewportToWorld2d(cameras[i], loc.position)
        case None => None
        case Some(cursor) => Some(PointerHits(p.id, Picks(engine, cameras[i], cursor, tilemaps, false), cameras[i].order as real))
  }

  /**
   * A pointer yields an event exactly when it has a location, a camera is
   * chosen for its target and the unprojection succeeds; the event carries
   * the pointer's id, the chosen camera's order and only that camera's hits.
   */
  lemma PointerEventSpec(engine: Engine, p: Pointer, cameras: seq<CameraView>, windows: seq<Entity>, tilemaps: seq<TilemapView>)
    ensures var r := PointerEvent(engine, p, cameras, windows, tilemaps);
            r.Some? <==>
              p.location.Some? &&
              FirstCamera(engine, cameras, windows, p.location.value.target).Some? &&
              engine.viewportToWorld2d(cameras[FirstCamera(engine, cameras, windows, p.location.value.target).value],
                                       p.location.value.position).Some?
    ensures var r := PointerEvent(engine, p, cameras, windows, tilemaps);
            r.Some? ==>
              var cam := cameras[FirstCamera(engine, cameras, windows, p.location.value.target).value];
              r.value.pointer == p.id && r.value.order == cam.order as real &&
              forall k :: 0 <= k < |r.value.picks| ==> r.value.picks[k].hit.camera == cam.entity
  {
  }

  /** The per-pointer outcomes of one backend run, in pointer order. */
  function PointerEvents(engine: Engine, pointers: seq<Pointer>, cameras: seq<CameraView>, windows: seq<Entity>, tilemaps: seq<TilemapView>)
    : seq<Option<PointerHits>>
  {
    seq(|pointers|, i requires 0 <= i < |pointers| => PointerEvent(engine, pointers[i], cameras, windows, tilemaps))
  }

  /** The events of one backend run. */
  function Events(engine: Engine, pointers: seq<Pointer>, cameras: seq<CameraView>, windows: seq<Entity>, tilemaps: seq<TilemapView>)
    : (r: seq<PointerHits>)
    ensures |r| <= |pointers|
  {
    Somes(PointerEvents(engine, pointers, cameras, windows, tilemaps))
  }

  /**
   * The events are exactly those of the pointers that produce one, each
   * once, in pointer order; so there are at most as many events as
   * pointers, and a pointer without a location produces none.
   */
  lemma EventsOrigin(engine: Engine, pointers: seq<Pointer>, cameras: seq<CameraView>, windows: seq<Entity>, tilemaps: seq<TilemapView>)
    returns (idx: seq<nat>)
    ensures var es := Events(engine, pointers, cameras, windows, tilemaps);
            |idx| == |es| && |es| <= |pointers| &&
            (forall k, l :: 0 <= k < l < |idx| ==> idx[k] < idx[l]) &&
            (forall k :: 0 <= k < |idx| ==>
               idx[k] < |pointers| && PointerEvent(engine, pointers[idx[k]], cameras, windows, tilemaps) == Some(es[k])) &&
            (forall i :: 0 <= i < |pointers| && PointerEvent(engine, pointers[i], cameras, windows, tilemaps).Some? ==> i in idx)
  {
    idx := SomePositions(PointerEvents(engine, pointers, cameras, windows, tilemaps));
    SomesOrigin(PointerEvents(engine, pointers, cameras, windows, tilemaps));
  }

  /**
   * One pointer's pass of the backend: choose the camera, unproject,
   * collect the hits, and build the event; nothing when a step fails.
   */
  method HandlePointer(engine: Engine, p: Pointer, cameras: seq<CameraView>, windows: seq<Entity>, tilemaps: seq<TilemapView>)
    returns (event: Option<PointerHits>)
    ensures event == PointerEvent(engine, p, cameras, windows, tilemaps)
  {
    event := None;
    if p.location.Some? {
      var loc := p.location.value;
      var c := SelectCamera(engine, cameras, windows, loc.target);
      if c.Some? {
        var cam := cameras[c.value];
        var cursor := engine.viewportToWorld2d(cam, loc.position);
        if cursor.Some? {
          var picks := CollectPicks(engine, cam, cursor.value, tilemaps);
          event := Some(PointerHits(p.id, picks, cam.order as real));
        }
      }
    }
  }

  /** The backend system: one pass over the pointers, sending events in order. */
  method TilePicking(engine: Engine, pointers: seq<Pointer>, cameras: seq<CameraView>, windows: seq<Entity>, tilemaps: seq<TilemapView>)
    returns (output: seq<PointerHits>)
    ensures output == Events(engine, pointers, cameras, windows, tilemaps)
  {
    ghost var expected := PointerEvents(engine, pointers, cameras, windows, tilemaps);
    output := [];
    for i := 0 to |pointers|
      invariant output == Somes(expected[..i])
    {
      var event := HandlePointer(engine, pointers[i], cameras, windows, tilemaps);
      if event.Some? {
        output := output + [event.value];
      }
      assert expected[..i + 1] == expected[..i] + [expected[i]];
      SomesSnoc(expected[..i], expected[i]);
    }
    assert expected[..|pointers|] == expected;
  }
}
