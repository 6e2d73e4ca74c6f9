# Isometric world generation and tile picking — a Dafny model

This project models the two pieces of logic inside a Bevy isometric-tilemap
demo (`bevy_iso_world_gen`):

1. **Terrain classification and world-grid population** (`src/main.rs`).
   A table of `(TileType, start..end)` entries is built by appending five
   entries to an empty table. A sample is classified by scanning the table
   in insertion order: the first entry whose half-open range contains the
   sample wins, and `Dirt` is the fallback. Map generation walks every
   `(x, y)` of the 32 x 32 grid. It normalises the noise sample with
   `(n + 1) / 2`, classifies it, and stores one tile with that type's
   texture index at `(x, y)`.
2. **The tilemap picking backend** (`src/utils/tilemap_picker_backend.rs`).
   For each pointer that has a location, the backend chooses the first
   active camera whose normalised render target is the pointer's target.
   It unprojects the pointer into world space. It then walks the visible
   tilemaps in iteration order, recording at most one hit per tilemap with
   depth `-near - z`, until a hit tile has `should_block_lower` set. Finally
   it emits one `PointerHits` event carrying the camera's order.

Files:

- `wrappers.dfy`: module `Wrappers`, the `Option` type.
- `world_gen.dfy`: module `WorldGen`. It holds the tile types and texture
  indices, the range table as a class `TileTypeRanges` (the `ranges` vector
  is a `seq` field that `Add` reassigns), the classification spec `Classify`,
  the reference table, and the generation loop over an `array2` standing
  for the tile storage.
- `tilemap_picking.dfy`: module `TilemapPicking`. The backend is a method
  `TilePicking` with a loop over pointers. For each pointer it calls
  `HandlePointer`, which calls `SelectCamera` (a loop over cameras) and
  `CollectPicks` (a loop over tilemaps that threads the `blocked` flag). Each method is proved equal to a specification function
  (`FirstCamera`, `Picks`, `PointerEvent`, `Events`), and the lemmas state what those
  functions guarantee.

Library and engine calls are parameters. The noise field is a function
`(nat, nat) -> real`. The picking backend's library calls are the fields of
an `Engine` value, each an arbitrary total function: render-target
normalisation, `viewport_to_world_2d`, the tilemap's inverse transform,
`TilePos::from_world_pos`, `TileStorage::get` and the tile component query.
Nothing is assumed about them. `f32` values are modelled as `real`, because
the code only compares them or maps them affinely.

The model follows the code as written. Points of its behaviour that are easy to
misread:

- The normalised sample is meant to lie in the "0-1 range" (the comment at
  `src/main.rs:133`). But the last reference range `0.81..1.0` is half-open,
  so a sample of exactly `1.0` classifies as `Dirt`, not `Stone`.
- The camera chosen is the first match in query order. The code does not
  check that the match is unique.
- Tilemaps are tested in query iteration order, not sorted by depth.
- A pointer with no matching camera, or whose unprojection fails, produces no
  event at all, not an event with an empty hit list
  (`src/utils/tilemap_picker_backend.rs:49-56`). A pointer that reaches the
  tilemap walk always produces an event, even when it has no hits.
- The tilemap's matrix inverse is total (glam's `Mat4::inverse` returns a
  matrix, not an option). A singular transform is not guarded; it yields
  non-finite coordinates, which `from_world_pos` may reject.

## Model

| member | source | states |
|---|---|---|
| WorldGen.TextureIndex | src/main.rs:30-39 | every texture index lies in 0..=4 |
| WorldGen.TileTypeOfTextureIndex | src/main.rs:30-39 | inverse of the texture map: defined exactly on 0..=4, and maps each index back to a type with that index |
| WorldGen.TextureIndexRoundTrip | src/main.rs:30-39 | decoding a type's texture index gives back that type |
| WorldGen.TextureIndexInjective | src/main.rs:30-39 | distinct tile types have distinct texture indices |
| WorldGen.FirstMatch | src/main.rs:65-70 | returns the least index whose half-open range contains the value; returns none exactly when no entry contains it |
| WorldGen.Classify | src/main.rs:65-73 | the type of the earliest entry containing the value, so earlier entries win overlaps; Dirt when no entry contains it |
| WorldGen.TileTypeRanges.constructor | src/main.rs:54-56 | a new table is empty and classifies every value as Dirt |
| WorldGen.TileTypeRanges.Add | src/main.rs:58-63 | the table becomes the old table with exactly one entry appended at the end |
| WorldGen.ClassifyAppend | src/main.rs:58-73 | appending an entry never changes a value an earlier entry matches; it can only claim values that fell back to Dirt |
| WorldGen.TileTypeRanges.GetTileType | src/main.rs:65-73 | the insertion-order scan with early return computes Classify of the table |
| WorldGen.PartitionBounds | src/main.rs:65-73 | every entry of a gap-free, non-overlapping tiling of [lo, hi) lies inside [lo, hi) |
| WorldGen.PartitionClassify | src/main.rs:65-73 | for such a tiling, a value is matched exactly when it lies in [lo, hi), at most one entry contains it, and values outside give Dirt |
| WorldGen.Setup | src/main.rs:87-95 | the table built at startup is exactly the five reference entries in order |
| WorldGen.ReferencePartition | src/main.rs:88-93 | the reference ranges are contiguous and cover [0.0, 1.0) with no gap |
| WorldGen.ReferenceClassify | src/main.rs:88-93 | for every value, the reference table gives the declared type of its interval; 1.0 and values outside [0, 1) give Dirt |
| WorldGen.ReferenceExamples | src/main.rs:88-93 | 0.0 and 0.1999 give Water, 0.2 gives Sand, 0.45 gives Grass, 0.81 and 0.999 give Stone, 1.0 and -0.5 give Dirt |
| WorldGen.Normalise | src/main.rs:133 | maps [-1, 1] into [0, 1], and the sample is recovered as 2r - 1 |
| WorldGen.NormaliseMonotone | src/main.rs:133 | normalisation preserves and reflects both <= and < |
| WorldGen.GenerateWorldMap | src/main.rs:123-171 | the storage is WIDTH x HEIGHT, and every (x, y) holds one tile at position (x, y) whose texture index is that of the classified, normalised noise at (x, y) |
| TilemapPicking.CameraMatches | src/utils/tilemap_picker_backend.rs:38-47 | a camera qualifies only if it is active and there is exactly one primary window |
| TilemapPicking.FirstCamera | src/utils/tilemap_picker_backend.rs:36-51 | the chosen camera is the first one that is active and whose normalised target is the pointer's target; none exactly when no camera qualifies |
| TilemapPicking.NoCameraWithoutSingleWindow | src/utils/tilemap_picker_backend.rs:42-45 | without exactly one primary window no camera is chosen |
| TilemapPicking.SelectCamera | src/utils/tilemap_picker_backend.rs:36-51 | the camera loop returns an active camera, namely the one FirstCamera specifies |
| TilemapPicking.HitOf | src/utils/tilemap_picker_backend.rs:65-78 | a tilemap yields a hit exactly when the cursor's tile position resolves, the storage holds an entity there, and the tile query finds that entity visible; the hit is that entity, with the chosen camera and depth -near - z |
| TilemapPicking.Blocks | src/utils/tilemap_picker_backend.rs:72-76 | a tile blocks lower layers only if the tile query finds it and it carries a Pickable component |
| TilemapPicking.Picks | src/utils/tilemap_picker_backend.rs:58-80 | at most one hit per tilemap; every hit carries the chosen camera; once blocked, no later tilemap contributes |
| TilemapPicking.CutAfterFirstBlocker | src/utils/tilemap_picker_backend.rs:62-76 | a prefix of the hits in which only the last may block, and which is shorter than the hits only when its last element blocks |
| TilemapPicking.PicksAreCutHits | src/utils/tilemap_picker_backend.rs:58-80 | the blocking fold equals all unblocked hits of the visible tilemaps, cut after the first blocking one |
| TilemapPicking.BlockingHitIsLast | src/utils/tilemap_picker_backend.rs:62-76 | after a hit on a tile with should_block_lower, no further hit is recorded |
| TilemapPicking.SkippedTilemap | src/utils/tilemap_picker_backend.rs:58-75 | an invisible tilemap, or one where no tile resolves, is missing, or is invisible, adds no hit and leaves blocked unchanged |
| TilemapPicking.PicksOrigin | src/utils/tilemap_picker_backend.rs:58-80 | each hit comes from its own visible tilemap, in tilemap order, is that tilemap's hit, and has depth -near - z of that tilemap |
| TilemapPicking.TwoLayerOcclusion | src/utils/tilemap_picker_backend.rs:58-80 | with two stacked tilemaps that both hit, the lower one is reported exactly when the upper tile does not block |
| TilemapPicking.CollectPicks | src/utils/tilemap_picker_backend.rs:58-80 | the tilemap loop with its running blocked flag computes Picks |
| TilemapPicking.PointerEvent | src/utils/tilemap_picker_backend.rs:30-85 | the event of one pointer: none without a location, and any event carries that pointer's id |
| TilemapPicking.PointerEventSpec | src/utils/tilemap_picker_backend.rs:30-85 | a pointer yields an event exactly when it has a location, a camera is chosen and unprojection succeeds, even with no hits; the event carries the pointer id, the chosen camera's order as a number, and only that camera's hits |
| TilemapPicking.Events | src/utils/tilemap_picker_backend.rs:30-86 | the events of one run, the present per-pointer events in pointer order; never more events than pointers |
| TilemapPicking.EventsOrigin | src/utils/tilemap_picker_backend.rs:30-86 | events come in pointer order, at most one per pointer, and every pointer that yields an event contributes it |
| TilemapPicking.HandlePointer | src/utils/tilemap_picker_backend.rs:34-85 | one pointer's pass (camera choice, unprojection, tilemap walk) builds exactly PointerEvent |
| TilemapPicking.TilePicking | src/utils/tilemap_picker_backend.rs:15-87 | the backend's loop over pointers sends exactly Events, in order |

## Left out

- The noise generator (FastNoiseLite, FBm over OpenSimplex2, seed 1325, five octaves, frequency 0.035, weighted strength -0.5) is a parameter of GenerateWorldMap. Determinism holds because it is a function.
- IEEE `f32` rounding: samples, bounds and depths are `real`. The reference bounds are taken as the exact decimals written in the code.
- WorldGen.GenerateWorldMap: the tile storage is an `array2` indexed by `(x, y)`, not the library's flat vector. A tile entity is represented by the components the loop sets: position, tilemap id and texture index.
- The hover closure attached to every tile only moves the preview sprite with library transforms, so it is not modelled.
- Engine set-up is not modelled: the camera spawn, the `TilemapBundle` and its render settings, `get_tilemap_center_transform`, asset loading, `spawn_preview`, the app builder and the plugin registration.
- Library internals are not modelled: the isometric grid-to-world formula inside `TilePos::from_world_pos`, `viewport_to_world_2d`, matrix inversion, `TileStorage::get`, and `RenderTarget::normalize`. Given a window, normalisation always returns a target, so the `.unwrap()` after it cannot fail and is modelled as total.
- TilemapPicking.HitOf: `HitData`'s position and normal are always `None` in the code and are omitted from the hit.
- TilemapPicking.TilePicking: `camera.order as f32` is modelled as the exact conversion of an integer to `real`. Precision loss for very large orders is not modelled.
- The ECS scheduling of the system is not modelled: it runs in the `PreUpdate` backend set, and pointers, cameras and tilemaps are taken in query iteration order.
