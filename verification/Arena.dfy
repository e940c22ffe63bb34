/** The two-layer world of void-demo/src/arena.rs: an untouched landscape, and a
    road drawn over the chunks that are marked as built.

    A chunk is its 256 columns of block states. What a column of landscape is, and
    what the road makes of it, are parameters: the choice of blocks plays no part. */
module Arena {
  import opened Reals
  import opened TrackIndex

  type Column = seq<int>

  datatype Terrain = Terrain(base: (int, int) -> Column, deck: (Projection, int, int, Column) -> Column)

  /** The shared circuit, the chunks held by the world, those marked dirty, and
      whether the assertion of `prepare` has fired. */
  datatype World = World(
    track: Track,
    built: set<ChunkPos>,
    chunks: map<ChunkPos, seq<Column>>,
    dirty: set<ChunkPos>,
    panicked: bool)

  const COLUMNS := 256

  function WorldX(pos: ChunkPos, k: nat): int {
    pos.x * 16 + k % 16
  }

  function WorldZ(pos: ChunkPos, k: nat): int {
    pos.z * 16 + k / 16
  }

  /** The projection of a column's centre onto the road. */
  ghost function Centre(track: Track, wx: int, wz: int): Projection
    requires Valid(track)
  {
    ProjectSpec(track, wx as real + 0.5, wz as real + 0.5)
  }

  function OnDeck(p: Projection): bool {
    p.reach.Some? && p.reach.value <= Square(HALF_WIDTH + 1.0)
  }

  // ---- generation -----------------------------------------------------------

  ghost function Landscape(terrain: Terrain, pos: ChunkPos): (chunk: seq<Column>) {
    seq(COLUMNS, k requires 0 <= k => terrain.base(WorldX(pos, k), WorldZ(pos, k)))
  }

  /** A column with the road drawn on it wherever the road passes. */
  ghost function Paved(terrain: Terrain, track: Track, wx: int, wz: int): Column
    requires Valid(track)
  {
    var p := Centre(track, wx, wz);
    var column := terrain.base(wx, wz);
    if OnDeck(p) then terrain.deck(p, wx, wz, column) else column
  }

  ghost function Overlaid(terrain: Terrain, track: Track, pos: ChunkPos): (chunk: seq<Column>)
    requires Valid(track)
  {
    seq(COLUMNS, k requires 0 <= k => Paved(terrain, track, WorldX(pos, k), WorldZ(pos, k)))
  }

  ghost function Generate(terrain: Terrain, track: Track, built: set<ChunkPos>, pos: ChunkPos): seq<Column>
    requires Valid(track)
  {
    if pos in built then Overlaid(terrain, track, pos) else Landscape(terrain, pos)
  }

  method GenerateChunk(terrain: Terrain, track: Track, built: set<ChunkPos>, pos: ChunkPos)
    returns (chunk: seq<Column>)
    requires Valid(track)
    ensures chunk == Generate(terrain, track, built, pos)
  {
    chunk := [];
    for k := 0 to COLUMNS
      invariant chunk == Landscape(terrain, pos)[..k]
    {
      chunk := chunk + [terrain.base(WorldX(pos, k), WorldZ(pos, k))];
    }
    if pos in built {
      chunk := Overlay(terrain, track, pos, chunk);
    }
  }

  /** Draws the road over a chunk of landscape, column by column. */
  method Overlay(terrain: Terrain, track: Track, pos: ChunkPos, landscape: seq<Column>)
    returns (chunk: seq<Column>)
    requires Valid(track) && landscape == Landscape(terrain, pos)
    ensures chunk == Overlaid(terrain, track, pos)
  {
    hide Valid, ProjectSpec, OnDeck;
    chunk := landscape;
    for k := 0 to COLUMNS
      invariant |chunk| == COLUMNS
      invariant chunk[..k] == Overlaid(terrain, track, pos)[..k]
      invariant chunk[k..] == landscape[k..]
    {
      var (wx, wz) := (WorldX(pos, k), WorldZ(pos, k));
      var p := Project(track, wx as real + 0.5, wz as real + 0.5);
      assert chunk[k..][0] == terrain.base(wx, wz);
      if OnDeck(p) {
        chunk := chunk[k := terrain.deck(p, wx, wz, chunk[k])];
      }
      assert chunk[k] == Overlaid(terrain, track, pos)[k];
    }
  }

  /** Every column the road passes over lies in a chunk of the index, so outside
      those chunks drawing the road changes nothing. */
  lemma RoadStaysInItsChunks(terrain: Terrain, track: Track, pos: ChunkPos)
    requires Valid(track) && InWorld(pos) && pos !in track.index
    ensures Overlaid(terrain, track, pos) == Landscape(terrain, pos)
  {
    hide Valid, ProjectSpec, ChunkCoord;
    forall k: nat | k < COLUMNS
      ensures Paved(terrain, track, WorldX(pos, k), WorldZ(pos, k)) == terrain.base(WorldX(pos, k), WorldZ(pos, k))
    {
      var (wx, wz) := (WorldX(pos, k), WorldZ(pos, k));
      ColumnIsInItsChunk(pos.x, k % 16);
      ColumnIsInItsChunk(pos.z, k / 16);
      OutsideTheIndex(track, wx as real + 0.5, wz as real + 0.5);
    }
  }

  /** A column is drawn on exactly when its centre is within the deck's half
      width plus one of some point of the road, wherever that point is. */
  lemma DeckIsComplete(track: Track, wx: int, wz: int)
    requires Valid(track)
    ensures OnDeck(Centre(track, wx, wz)) <==>
            exists i: nat, s: real :: OnRoadOf(track, wx, wz, i, s)
  {
    var (x, z) := (wx as real + 0.5, wz as real + 0.5);
    SquareMonotone(HALF_WIDTH + 1.0, MARGIN);
    IndexAgreesWithScan(track, x, z);
    if OnDeck(Centre(track, wx, wz)) {
      var best := BruteForce(track, x, z).segment;
      BruteForceIsNearest(track, x, z, 0, 0.0);
      assert OnRoadOf(track, wx, wz, best, Nearest(track.nodes, best, x, z));
    }
    if i: nat, s: real :| OnRoadOf(track, wx, wz, i, s) {
      assert OnRoadWithin(track, x, z, i, s);
      BruteForceIsNearest(track, x, z, i, s);
    }
  }

  ghost predicate OnRoadOf(track: Track, wx: int, wz: int, i: nat, s: real) {
    && i + 1 < |track.nodes|
    && 0.0 <= s <= 1.0
    && ReachAt(track.nodes, i, wx as real + 0.5, wz as real + 0.5, s) <= Square(HALF_WIDTH + 1.0)
  }

  // ---- world columns --------------------------------------------------------

  predicate IsBlock(b: int) {
    -0x8000_0000 <= b <= 0x7FFF_FFFF
  }

  /** The chunk that holds a world column, and the column's place in it: rows of z, each
      running along x. */
  function ChunkOf(wx: int, wz: int): ChunkPos {
    ChunkPos(wx / 16, wz / 16)
  }

  function PlaceOf(wx: int, wz: int): (k: nat)
    ensures k < COLUMNS
  {
    wx % 16 + 16 * (wz % 16)
  }

  ghost predicate HoldsColumn(chunks: map<ChunkPos, seq<Column>>, wx: int, wz: int, column: Column) {
    var pos := ChunkOf(wx, wz);
    pos in chunks && |chunks[pos]| == COLUMNS && chunks[pos][PlaceOf(wx, wz)] == column
  }

  /** The place is the column's own: the chunk is the one `from_block` gives, and the loops
      over a chunk come to the column there, once, and in no other chunk. */
  lemma ColumnStandsOnce(wx: int, wz: int, pos: ChunkPos, k: nat)
    requires IsBlock(wx) && IsBlock(wz) && k < COLUMNS
    ensures FromBlock(wx as real, wz as real) == ChunkOf(wx, wz) && InWorld(ChunkOf(wx, wz))
    ensures WorldX(pos, k) == wx && WorldZ(pos, k) == wz <==> pos == ChunkOf(wx, wz) && k == PlaceOf(wx, wz)
  {
    assert (wx as real).Floor == wx && (wz as real).Floor == wz;
  }

  /** Every place of a chunk is that of one of its columns. */
  lemma PlacesAreColumns(pos: ChunkPos, k: nat) returns (wx: int, wz: int)
    requires InWorld(pos) && k < COLUMNS
    ensures IsBlock(wx) && IsBlock(wz) && ChunkOf(wx, wz) == pos && PlaceOf(wx, wz) == k
  {
    wx, wz := pos.x * 16 + k % 16, pos.z * 16 + k / 16;
  }

  /** The landscape, and the road over it, column by column of the world. */
  lemma ColumnsOf(terrain: Terrain, track: Track, wx: int, wz: int)
    requires Valid(track) && IsBlock(wx) && IsBlock(wz)
    ensures Landscape(terrain, ChunkOf(wx, wz))[PlaceOf(wx, wz)] == terrain.base(wx, wz)
    ensures Overlaid(terrain, track, ChunkOf(wx, wz))[PlaceOf(wx, wz)] ==
            if exists i: nat, s: real :: OnRoadOf(track, wx, wz, i, s)
            then terrain.deck(ProjectSpec(track, wx as real + 0.5, wz as real + 0.5), wx, wz, terrain.base(wx, wz))
            else terrain.base(wx, wz)
  {
    ColumnStandsOnce(wx, wz, ChunkOf(wx, wz), PlaceOf(wx, wz));
    DeckIsComplete(track, wx, wz);
    hide Valid, ProjectSpec, OnDeck, OnRoadOf, WorldX, WorldZ, ChunkOf, PlaceOf, IsBlock;
  }

  // ---- the operations on the shared world -------------------------------------

  datatype Op = Prepare(track: Track) | Replace(pos: ChunkPos, build: bool) | Stream(pos: ChunkPos)

  ghost predicate ValidOp(op: Op) {
    op.Prepare? ==> Valid(op.track)
  }

  ghost function Apply(terrain: Terrain, w: World, op: Op): World
    requires Valid(w.track) && ValidOp(op)
  {
    match op
    case Prepare(track) =>
      if w.built != {} then w.(panicked := true) else w.(track := track)
    case Replace(pos, build) =>
      var built := if build then w.built + {pos} else w.built - {pos};
      w.(built := built,
         chunks := w.chunks[pos := Generate(terrain, w.track, built, pos)],
         dirty := w.dirty + {pos})
    case Stream(pos) =>
      if pos in w.chunks then w
      else w.(chunks := w.chunks[pos := Generate(terrain, w.track, w.built, pos)])
  }

  /** Every chunk the world holds is what the generator would return now. */
  ghost predicate Agrees(terrain: Terrain, w: World) {
    Valid(w.track) && forall pos :: pos in w.chunks ==> w.chunks[pos] == Generate(terrain, w.track, w.built, pos)
  }

  lemma ApplyAgrees(terrain: Terrain, w: World, op: Op)
    requires Agrees(terrain, w) && ValidOp(op)
    ensures Agrees(terrain, Apply(terrain, w, op))
  {
    hide Valid, Landscape, Overlaid;
  }

  ghost predicate ValidRun(terrain: Terrain, run: seq<World>, ops: seq<Op>) {
    && |run| == |ops| + 1
    && Valid(run[0].track)
    && forall k :: 0 <= k < |ops| ==>
         Valid(run[k].track) && ValidOp(ops[k]) && run[k + 1] == Apply(terrain, run[k], ops[k])
  }

  /** Across any interleaving of the operations the world agrees with the
      generator, and whenever nothing is left built it holds the bare landscape. */
  lemma {:induction false} WorldAgreesAlways(terrain: Terrain, run: seq<World>, ops: seq<Op>, k: nat)
    requires ValidRun(terrain, run, ops) && Agrees(terrain, run[0]) && k < |run|
    ensures Agrees(terrain, run[k])
    ensures run[k].built == {} ==> forall pos :: pos in run[k].chunks ==> run[k].chunks[pos] == Landscape(terrain, pos)
  {
    if k > 0 {
      WorldAgreesAlways(terrain, run, ops, k - 1);
      ApplyAgrees(terrain, run[k - 1], ops[k - 1]);
    }
  }

  predicate Rebuilds(op: Op, pos: ChunkPos) {
    op.Replace? && op.pos == pos
  }

  predicate Brings(op: Op, pos: ChunkPos) {
    Rebuilds(op, pos) || op == Op.Stream(pos)
  }

  /** The chunks marked dirty are those that were replaced, and the world holds the chunks
      that were replaced or streamed, and no other. */
  lemma {:induction false} ReplacedAreDirty(terrain: Terrain, run: seq<World>, ops: seq<Op>, k: nat, pos: ChunkPos)
    requires ValidRun(terrain, run, ops) && k < |run|
    ensures pos in run[k].dirty <==> pos in run[0].dirty || exists j :: 0 <= j < k && Rebuilds(ops[j], pos)
    ensures pos in run[k].chunks <==> pos in run[0].chunks || exists j :: 0 <= j < k && Brings(ops[j], pos)
  {
    if k > 0 {
      ReplacedAreDirty(terrain, run, ops, k - 1, pos);
      assert run[k] == Apply(terrain, run[k - 1], ops[k - 1]);
      hide Valid, Generate, ValidRun;
      assert pos in run[k].dirty <==> pos in run[k - 1].dirty || Rebuilds(ops[k - 1], pos);
      assert pos in run[k].chunks <==> pos in run[k - 1].chunks || Brings(ops[k - 1], pos);
    }
  }

  /** With every chunk of the index built, the whole road is drawn: each chunk
      of the world, of the index or not, shows it complete. */
  lemma FullyBuilt(terrain: Terrain, w: World, pos: ChunkPos)
    requires Agrees(terrain, w) && w.built == w.track.index.Keys
    requires pos in w.chunks && InWorld(pos)
    ensures w.chunks[pos] == Overlaid(terrain, w.track, pos)
  {
    if pos !in w.built {
      RoadStaysInItsChunks(terrain, w.track, pos);
    }
  }

  /** The resource behind the lock together with the world it writes to. */
  class ArenaResource {
    const terrain: Terrain
    var track: Track
    var built: set<ChunkPos>
    var chunks: map<ChunkPos, seq<Column>>
    var dirty: set<ChunkPos>
    var panicked: bool

    constructor (terrain: Terrain, track: Track)
      ensures this.terrain == terrain && View() == World(track, {}, map[], {}, false)
    {
      this.terrain, this.track, this.built, this.chunks, this.dirty, this.panicked := terrain, track, {}, map[], {}, false;
    }

    ghost function View(): World
      reads this
    {
      World(track, built, chunks, dirty, panicked)
    }

    method Prepare(track: Track)
      requires Valid(this.track) && Valid(track)
      modifies this
      ensures View() == Apply(terrain, old(View()), Op.Prepare(track))
    {
      if built != {} {
        panicked := true;
        return;
      }
      this.track := track;
    }

    method Replace(pos: ChunkPos, build: bool)
      requires Valid(track)
      modifies this
      ensures View() == Apply(terrain, old(View()), Op.Replace(pos, build))
    {
      if build {
        built := built + {pos};
      } else {
        built := built - {pos};
      }
      var data := GenerateChunk(terrain, track, built, pos);
      chunks := chunks[pos := data];
      dirty := dirty + {pos};
    }

    method Stream(pos: ChunkPos)
      requires Valid(track)
      modifies this
      ensures View() == Apply(terrain, old(View()), Op.Stream(pos))
    {
      if pos !in chunks {
        var data := GenerateChunk(terrain, track, built, pos);
        chunks := chunks[pos := data];
      }
    }
  }
}
