/**
 * Terrain classification and world-grid population (src/main.rs).
 *
 * A noise sample in [-1, 1] is normalised to [0, 1], classified against an
 * ordered table of half-open ranges (first match wins, Dirt otherwise), and
 * the tile type's texture index is stored for every cell of a
 * WIDTH x HEIGHT grid.
 */
module WorldGen {
  import opened Wrappers

  /** Map size, in tiles. */
  const WIDTH: nat := 32
  const HEIGHT: nat := 32

  /** Opaque entity handle. */
  type Entity = nat

  datatype TileType = Dirt | Grass | Stone | Sand | Water

  /** The atlas index used to draw each tile type. Dense: every index lies in 0..=4. */
  function TextureIndex(t: TileType): (r: nat)
    ensures r <= 4
  {
    match t
    case Dirt => 0
    case Grass => 1
    case Stone => 2
    case Sand => 3
    case Water => 4
  }

  /** The tile type drawn by atlas index `i`, if any: the inverse of TextureIndex. */
  function TileTypeOfTextureIndex(i: nat): (r: Option<TileType>)
    ensures r.Some? <==> i <= 4
    ensures r.Some? ==> TextureIndex(r.value) == i
  {
    if i == 0 then Some(Dirt)
    else if i == 1 then Some(Grass)
    else if i == 2 then Some(Stone)
    else if i == 3 then Some(Sand)
    else if i == 4 then Some(Water)
    else None
  }

  lemma TextureIndexRoundTrip(t: TileType)
    ensures TileTypeOfTextureIndex(TextureIndex(t)) == Some(t)
  {
  }

  lemma TextureIndexInjective(a: TileType, b: TileType)
    ensures TextureIndex(a) == TextureIndex(b) ==> a == b
  {
  }

  /** One table entry: a tile type and the half-open range start..end it covers. */
  datatype TileTypeRange = TileTypeRange(tileType: TileType, start: real, end: real)

  /** Rust's `Range::contains`: lower bound inclusive, upper bound exclusive. */
  predicate Contains(r: TileTypeRange, v: real)
  {
    r.start <= v < r.end
  }

  /** Index of the earliest entry whose range contains `v`. */
  function FirstMatch(ranges: seq<TileTypeRange>, v: real): (r: Option<nat>)
    ensures r.Some? ==> r.value < |ranges| && Contains(ranges[r.value], v)
    ensures r.Some? ==> forall j :: 0 <= j < r.value ==> !Contains(ranges[j], v)
    ensures r.None? <==> forall j :: 0 <= j < |ranges| ==> !Contains(ranges[j], v)
  {
    if ranges == [] then None
    else if Contains(ranges[0], v) then Some(0)
    else
      match FirstMatch(ranges[1..], v)
      case None => None
      case Some(i) => Some(i + 1)
  }

  /** What `get_tile_type` computes: the earliest containing entry's type, or Dirt. */
  function Classify(ranges: seq<TileTypeRange>, v: real): (t: TileType)
    ensures (forall j :: 0 <= j < |ranges| ==> !Contains(ranges[j], v)) ==> t == Dirt
    ensures forall i :: (0 <= i < |ranges| && Contains(ranges[i], v) &&
                         (forall j :: 0 <= j < i ==> !Contains(ranges[j], v))) ==> t == ranges[i].tileType
  {
    match FirstMatch(ranges, v)
    case None => Dirt
    case Some(i) => ranges[i].tileType
  }

  /**
   * Appending an entry never changes the type of a value an earlier entry
   * already matches; it can only claim values that used to fall back to Dirt.
   */
  lemma {:induction false} ClassifyAppend(ranges: seq<TileTypeRange>, e: TileTypeRange, v: real)
    ensures Classify(ranges + [e], v) ==
      if FirstMatch(ranges, v).Some? then Classify(ranges, v)
      else if Contains(e, v) then e.tileType
      else Dirt
  {
    var rs := ranges + [e];
    assert forall j :: 0 <= j < |ranges| ==> rs[j] == ranges[j];
    match FirstMatch(ranges, v)
    case Some(i) =>
    case None =>
      assert rs[|ranges|] == e;
  }

  /** The classification table resource. */
  class TileTypeRanges {
    var ranges: seq<TileTypeRange>

    /** An empty table: every value falls back to Dirt. */
    constructor ()
      ensures ranges == []
      ensures forall v :: Classify(ranges, v) == Dirt
    {
      ranges := [];
    }

    /** Appends one entry after all existing ones. */
    method Add(tileType: TileType, start: real, end: real)
      modifies this
      ensures ranges == old(ranges) + [TileTypeRange(tileType, start, end)]
    {
      ranges := ranges + [TileTypeRange(tileType, start, end)];
    }

    /** Scans the table in insertion order; returns the first containing entry's type. */
    method GetTileType(value: real) returns (t: TileType)
      ensures t == Classify(ranges, value)
    {
      for i := 0 to |ranges|
        invariant forall j :: 0 <= j < i ==> !Contains(ranges[j], value)
      {
        if Contains(ranges[i], value) {
          return ranges[i].tileType;
        }
      }
      return Dirt;
    }
  }

  /**
   * `ranges` tiles [lo, hi) with no gap and no overlap: each entry is
   * non-empty and starts where the previous one ended.
   */
  ghost predicate Partition(ranges: seq<TileTypeRange>, lo: real, hi: real)
    decreases |ranges|
  {
    if ranges == [] then lo == hi
    else ranges[0].start == lo && ranges[0].start < ranges[0].end && Partition(ranges[1..], ranges[0].end, hi)
  }

  lemma {:induction false} PartitionBounds(ranges: seq<TileTypeRange>, lo: real, hi: real)
    requires Partition(ranges, lo, hi)
    ensures lo <= hi
    ensures forall i :: 0 <= i < |ranges| ==> lo <= ranges[i].start && ranges[i].end <= hi
    decreases |ranges|
  {
    if ranges != [] {
      PartitionBounds(ranges[1..], ranges[0].end, hi);
      forall i | 1 <= i < |ranges|
        ensures lo <= ranges[i].start && ranges[i].end <= hi
      {
        assert ranges[i] == ranges[1..][i - 1];
      }
    }
  }

  /**
   * In a partition of [lo, hi), every value of [lo, hi) is contained in
   * exactly one entry, and its type is that entry's; values outside fall
   * back to Dirt.
   */
  lemma {:induction false} PartitionClassify(ranges: seq<TileTypeRange>, lo: real, hi: real, v: real)
    requires Partition(ranges, lo, hi)
    ensures lo <= v < hi <==> FirstMatch(ranges, v).Some?
    ensures forall i, j :: (0 <= i < |ranges| && 0 <= j < |ranges| &&
                            Contains(ranges[i], v) && Contains(ranges[j], v)) ==> i == j
    ensures !(lo <= v < hi) ==> Classify(ranges, v) == Dirt
    decreases |ranges|
  {
    PartitionBounds(ranges, lo, hi);
    if ranges != [] {
      var rest := ranges[1..];
      PartitionClassify(rest, ranges[0].end, hi, v);
      PartitionBounds(rest, ranges[0].end, hi);
      assert forall i :: 1 <= i < |ranges| ==> ranges[i] == rest[i - 1];
      if lo <= v < hi && !Contains(ranges[0], v) {
        var k := FirstMatch(rest, v).value;
        assert Contains(ranges[k + 1], v);
      }
    }
  }

  /** The table built at startup. */
  const ReferenceRanges: seq<TileTypeRange> := [
    TileTypeRange(Water, 0.0, 0.2),
    TileTypeRange(Sand, 0.2, 0.375),
    TileTypeRange(Dirt, 0.375, 0.45),
    TileTypeRange(Grass, 0.45, 0.81),
    TileTypeRange(Stone, 0.81, 1.0)
  ]

  /** Builds the reference table by five appends to an empty one. */
  method Setup() returns (table: TileTypeRanges)
    ensures fresh(table)
    ensures table.ranges == ReferenceRanges
  {
    table := new TileTypeRanges();
    table.Add(Water, 0.0, 0.2);
    table.Add(Sand, 0.2, 0.375);
    table.Add(Dirt, 0.375, 0.45);
    table.Add(Grass, 0.45, 0.81);
    table.Add(Stone, 0.81, 1.0);
  }

  /** The reference entries are contiguous and cover [0, 1) with no gap. */
  lemma ReferencePartition()
    ensures Partition(ReferenceRanges, 0.0, 1.0)
  {
  }

  /** The reference table, interval by interval; 1.0 and values outside [0, 1) give Dirt. */
  lemma ReferenceClassify(v: real)
    ensures Classify(ReferenceRanges, v) ==
      if 0.0 <= v < 0.2 then Water
      else if 0.2 <= v < 0.375 then Sand
      else if 0.375 <= v < 0.45 then Dirt
      else if 0.45 <= v < 0.81 then Grass
      else if 0.81 <= v < 1.0 then Stone
      else Dirt
  {
    ReferencePartition();
    PartitionClassify(ReferenceRanges, 0.0, 1.0, v);
    var r := ReferenceRanges;
    if 0.0 <= v < 1.0 {
      var i := FirstMatch(r, v).value;
      assert r[i] == r[0] || r[i] == r[1] || r[i] == r[2] || r[i] == r[3] || r[i] == r[4];
    }
  }

  /** Sample points at and around the reference boundaries. */
  lemma ReferenceExamples()
    ensures Classify(ReferenceRanges, 0.0) == Water
    ensures Classify(ReferenceRanges, 0.1999) == Water
    ensures Classify(ReferenceRanges, 0.2) == Sand
    ensures Classify(ReferenceRanges, 0.45) == Grass
    ensures Classify(ReferenceRanges, 0.81) == Stone
    ensures Classify(ReferenceRanges, 0.999) == Stone
    ensures Classify(ReferenceRanges, 1.0) == Dirt
    ensures Classify(ReferenceRanges, -0.5) == Dirt
  {
  }

  /** Maps a noise sample from [-1, 1] to [0, 1]. */
  function Normalise(n: real): (r: real)
    ensures -1.0 <= n <= 1.0 ==> 0.0 <= r <= 1.0
    ensures r * 2.0 - 1.0 == n
  {
    (n + 1.0) / 2.0
  }

  lemma NormaliseMonotone(a: real, b: real)
    ensures a <= b <==> Normalise(a) <= Normalise(b)
    ensures a < b <==> Normalise(a) < Normalise(b)
  {
  }

  datatype TilePos = TilePos(x: nat, y: nat)

  /** The components of a spawned tile entity that the map generation sets. */
  datatype TileBundle = TileBundle(position: TilePos, tilemapId: Entity, textureIndex: nat)

  /** The tile generated at (x, y) from the given table and noise field. */
  function ExpectedTile(ranges: seq<TileTypeRange>, noise: (nat, nat) -> real, tilemap: Entity, x: nat, y: nat): TileBundle
  {
    TileBundle(TilePos(x, y), tilemap, TextureIndex(Classify(ranges, Normalise(noise(x, y)))))
  }

  /**
   * The classify-and-store loop of the map generation: for every x then
   * every y, sample the noise, normalise, classify, and store one tile at
   * (x, y) in a storage that starts empty.
   */
  method GenerateWorldMap(table: TileTypeRanges, noise: (nat, nat) -> real, tilemap: Entity)
    returns (storage: array2<Option<TileBundle>>)
    ensures fresh(storage)
    ensures storage.Length0 == WIDTH && storage.Length1 == HEIGHT
    ensures forall x, y :: 0 <= x < WIDTH && 0 <= y < HEIGHT ==>
              storage[x, y] == Some(ExpectedTile(table.ranges, noise, tilemap, x, y))
  {
    ghost var ranges := table.ranges;
    storage := new Option<TileBundle>[WIDTH, HEIGHT]((_, _) => None);
    for x := 0 to WIDTH
      invariant forall i, j :: 0 <= i < x && 0 <= j < HEIGHT ==>
                  storage[i, j] == Some(ExpectedTile(ranges, noise, tilemap, i, j))
    {
      for y := 0 to HEIGHT
        invariant forall i, j :: 0 <= i < x && 0 <= j < HEIGHT ==>
                    storage[i, j] == Some(ExpectedTile(ranges, noise, tilemap, i, j))
        invariant forall j :: 0 <= j < y ==>
                    storage[x, j] == Some(ExpectedTile(ranges, noise, tilemap, x, j))
      {
        var noiseValue := noise(x, y);
        var normalised := Normalise(noiseValue);
        var tileType := table.GetTileType(normalised);
        storage[x, y] := Some(TileBundle(TilePos(x, y), tilemap, TextureIndex(tileType)));
      }
    }
  }
}
