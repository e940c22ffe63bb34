/** The closed racing line of void-demo/src/track.rs: a polyline with a spatial
    index by chunk, and the projection of a point onto it.

    Coordinates are reals. The length of a segment is the difference of the
    running distances of its two nodes, which `Valid` ties to the Pythagorean
    length, and distances to the road are kept squared, so no root is needed. */
module TrackIndex {
  import opened Options
  import opened Reals

  const GATES := 8
  const HALF_WIDTH: real := 7.0
  const MARGIN: real := HALF_WIDTH + 2.0
  const TAU: real := 6.283185307179586

  datatype ChunkPos = ChunkPos(x: int, z: int)

  datatype Node = Node(x: real, y: real, z: real, distance: real)

  /** `reach` is the squared distance, `None` standing for infinity. */
  datatype Projection = Projection(reach: Option<real>, segment: nat, phase: real, y: int, nx: real, nz: real)

  const OffRoad := Projection(None, 0, 0.0, 0, 1.0, 0.0)

  datatype Track = Track(seed: nat, nodes: seq<Node>, index: map<ChunkPos, seq<nat>>, length: real)

  // ---- chunk coordinates ----------------------------------------------------

  /** The saturating cast to a 32-bit signed integer. */
  function ToI32(v: int): int {
    if v < -0x8000_0000 then -0x8000_0000 else if v > 0x7FFF_FFFF then 0x7FFF_FFFF else v
  }

  /** Floor to a block, then an arithmetic shift by four. */
  function ChunkCoord(b: real): int {
    ToI32(b.Floor) / 16
  }

  function FromBlock(bx: real, bz: real): ChunkPos {
    ChunkPos(ChunkCoord(bx), ChunkCoord(bz))
  }

  lemma ChunkCoordMonotone(a: real, b: real)
    requires a <= b
    ensures ChunkCoord(a) <= ChunkCoord(b)
  {
    assert a.Floor <= b.Floor;
  }

  /** Chunk coordinates whose block columns are 32-bit integers. */
  predicate InWorld(pos: ChunkPos) {
    -0x800_0000 <= pos.x < 0x800_0000 && -0x800_0000 <= pos.z < 0x800_0000
  }

  lemma ColumnIsInItsChunk(c: int, l: nat)
    requires -0x800_0000 <= c < 0x800_0000 && l < 16
    ensures ChunkCoord((c * 16 + l) as real + 0.5) == c
  {
    var b := c * 16 + l;
    assert (b as real + 0.5).Floor == b;
    assert ToI32(b) == b;
  }

  // ---- one segment ----------------------------------------------------------

  function Dx(nodes: seq<Node>, i: nat): real
    requires i + 1 < |nodes|
  {
    nodes[i + 1].x - nodes[i].x
  }

  function Dz(nodes: seq<Node>, i: nat): real
    requires i + 1 < |nodes|
  {
    nodes[i + 1].z - nodes[i].z
  }

  function Len(nodes: seq<Node>, i: nat): real
    requires i + 1 < |nodes|
  {
    nodes[i + 1].distance - nodes[i].distance
  }

  predicate ValidSegment(nodes: seq<Node>, i: nat)
    requires i + 1 < |nodes|
  {
    && Len(nodes, i) > 0.0
    && Square(Len(nodes, i)) == Square(Dx(nodes, i)) + Square(Dz(nodes, i))
  }

  /** What the constructor's sampling loop leaves behind: distances start at 0
      and grow by the length of each (non-degenerate) segment. */
  predicate ValidNodes(nodes: seq<Node>) {
    && |nodes| >= 2
    && nodes[0].distance == 0.0
    && forall i: nat :: i + 1 < |nodes| ==> ValidSegment(nodes, i)
  }

  /** The parameter in [0, 1] of the foot of w on the direction d. */
  function Foot(wx: real, wz: real, dx: real, dz: real): (t: real)
    requires Square(dx) + Square(dz) > 0.0
    ensures 0.0 <= t <= 1.0
  {
    Clamp((Mul(wx, dx) + Mul(wz, dz)) / (Square(dx) + Square(dz)), 0.0, 1.0)
  }

  /** The parameter of the segment's point nearest to (x, z). */
  function Nearest(nodes: seq<Node>, i: nat, x: real, z: real): (t: real)
    requires i + 1 < |nodes| && ValidSegment(nodes, i)
    ensures 0.0 <= t <= 1.0
  {
    Foot(x - nodes[i].x, z - nodes[i].z, Dx(nodes, i), Dz(nodes, i))
  }

  /** Squared distance from (x, z) to the segment's point at parameter s. */
  function ReachAt(nodes: seq<Node>, i: nat, x: real, z: real, s: real): real
    requires i + 1 < |nodes|
  {
    Square(x - nodes[i].x - Mul(Dx(nodes, i), s)) + Square(z - nodes[i].z - Mul(Dz(nodes, i), s))
  }

  function Reach(nodes: seq<Node>, i: nat, x: real, z: real): real
    requires i + 1 < |nodes| && ValidSegment(nodes, i)
  {
    ReachAt(nodes, i, x, z, Nearest(nodes, i, x, z))
  }

  /** n s^2 - 2 d s, the part of a squared distance that depends on the parameter. */
  function Parabola(n: real, d: real, s: real): real {
    Mul(n, Square(s)) - 2.0 * Mul(d, s)
  }

  lemma ParabolaAdds(n: real, d: real, m: real, e: real, s: real)
    ensures Parabola(n + m, d + e, s) == Parabola(n, d, s) + Parabola(m, e, s)
  {}

  lemma Scaled(n: real, v: real, s: real, t: real)
    ensures Mul(n, Square(s) - Square(t) - 2.0 * Mul(v, s - t)) == Parabola(n, v * n, s) - Parabola(n, v * n, t)
  {}

  lemma VertexGap(v: real, s: real)
    requires 0.0 <= s <= 1.0
    ensures var t := Clamp(v, 0.0, 1.0); Square(s) - Square(t) - 2.0 * Mul(v, s - t) >= 0.0
  {
    var t := Clamp(v, 0.0, 1.0);
    if v < 0.0 {
      assert Mul(s, s - 2.0 * v) == Square(s) - Square(t) - 2.0 * Mul(v, s - t);
    } else if v > 1.0 {
      assert Mul(1.0 - s, 2.0 * v - s - 1.0) == Square(s) - Square(t) - 2.0 * Mul(v, s - t);
    } else {
      assert Square(s - v) == Square(s) - Square(t) - 2.0 * Mul(v, s - t);
    }
  }

  /** The clamped vertex of a parabola is its minimum on [0, 1]. */
  lemma ClampedVertex(n: real, d: real, s: real)
    requires n > 0.0 && 0.0 <= s <= 1.0
    ensures Parabola(n, d, s) >= Parabola(n, d, Clamp(d / n, 0.0, 1.0))
  {
    Quotient(d, n);
    var v := d / n;
    assert v * n == d;
    VertexGap(v, s);
    Scaled(n, v, s, Clamp(v, 0.0, 1.0));
    hide Mul, Square, Parabola;
  }

  lemma FootIsLeast(wx: real, wz: real, dx: real, dz: real, s: real)
    requires Square(dx) + Square(dz) > 0.0 && 0.0 <= s <= 1.0
    ensures var t := Foot(wx, wz, dx, dz);
            Square(wx - Mul(dx, t)) + Square(wz - Mul(dz, t)) <= Square(wx - Mul(dx, s)) + Square(wz - Mul(dz, s))
  {
    hide Mul, Square, Parabola, Clamp;
    var (n, d) := (Square(dx) + Square(dz), Mul(wx, dx) + Mul(wz, dz));
    ClampedVertex(n, d, s);
    Expand(wx, wz, dx, dz, s);
    Expand(wx, wz, dx, dz, Clamp(d / n, 0.0, 1.0));
  }

  /** `Reach` is the distance to the segment: no point of it is nearer. */
  lemma ReachIsLeast(nodes: seq<Node>, i: nat, x: real, z: real, s: real)
    requires i + 1 < |nodes| && ValidSegment(nodes, i) && 0.0 <= s <= 1.0
    ensures 0.0 <= Reach(nodes, i, x, z) <= ReachAt(nodes, i, x, z, s)
  {
    hide Mul, Square, Foot;
    FootIsLeast(x - nodes[i].x, z - nodes[i].z, Dx(nodes, i), Dz(nodes, i), s);
  }

  lemma Expand(wx: real, wz: real, dx: real, dz: real, s: real)
    ensures Square(wx - Mul(dx, s)) + Square(wz - Mul(dz, s))
         == Square(wx) + Square(wz) + Parabola(Square(dx) + Square(dz), Mul(wx, dx) + Mul(wz, dz), s)
  {
    hide Mul, Square, Parabola;
    ExpandAxis(wx, dx, s);
    ExpandAxis(wz, dz, s);
    ParabolaAdds(Square(dx), Mul(wx, dx), Square(dz), Mul(wz, dz), s);
  }

  lemma ExpandAxis(w: real, d: real, s: real)
    ensures Square(w - Mul(d, s)) == Square(w) + Parabola(Square(d), Mul(w, d), s)
  {}

  // ---- the index ------------------------------------------------------------

  /** The lowest and highest chunk of the segment's box, widened by the margin. */
  function LowChunk(nodes: seq<Node>, i: nat): ChunkPos
    requires i + 1 < |nodes|
  {
    var (a, b) := (nodes[i], nodes[i + 1]);
    FromBlock(Min(a.x, b.x) - MARGIN, Min(a.z, b.z) - MARGIN)
  }

  function HighChunk(nodes: seq<Node>, i: nat): ChunkPos
    requires i + 1 < |nodes|
  {
    var (a, b) := (nodes[i], nodes[i + 1]);
    FromBlock(Max(a.x, b.x) + MARGIN, Max(a.z, b.z) + MARGIN)
  }

  predicate Between(low: ChunkPos, high: ChunkPos, pos: ChunkPos) {
    low.x <= pos.x <= high.x && low.z <= pos.z <= high.z
  }

  predicate Files(nodes: seq<Node>, i: nat, pos: ChunkPos)
    requires i + 1 < |nodes|
  {
    Between(LowChunk(nodes, i), HighChunk(nodes, i), pos)
  }

  /** The first n segments that are filed under `pos`, in course order. */
  function Filed(nodes: seq<Node>, n: nat, pos: ChunkPos): seq<nat>
    requires n < |nodes|
  {
    if n == 0 then []
    else Filed(nodes, n - 1, pos) + if Files(nodes, n - 1, pos) then [n - 1] else []
  }

  function Lookup(index: map<ChunkPos, seq<nat>>, pos: ChunkPos): seq<nat> {
    if pos in index then index[pos] else []
  }

  /** The index built from the first n segments: no empty entry, and under each
      chunk exactly the segments whose widened box meets it. */
  ghost predicate IndexOf(nodes: seq<Node>, n: nat, index: map<ChunkPos, seq<nat>>)
    requires n < |nodes|
  {
    && (forall pos :: Lookup(index, pos) == Filed(nodes, n, pos))
    && (forall pos :: pos in index ==> index[pos] != [])
  }

  ghost predicate Valid(track: Track) {
    && ValidNodes(track.nodes)
    && IndexOf(track.nodes, |track.nodes| - 1, track.index)
    && track.length == track.nodes[|track.nodes| - 1].distance
  }

  /** Index construction: every segment is filed under each chunk of its widened box. */
  method BuildIndex(nodes: seq<Node>) returns (index: map<ChunkPos, seq<nat>>)
    requires |nodes| >= 2
    ensures IndexOf(nodes, |nodes| - 1, index)
  {
    index := map[];
    for i := 0 to |nodes| - 1
      invariant IndexOf(nodes, i, index)
    {
      index := FileSegment(index, LowChunk(nodes, i), HighChunk(nodes, i), i);
    }
  }

  method FileSegment(before: map<ChunkPos, seq<nat>>, low: ChunkPos, high: ChunkPos, i: nat)
    returns (index: map<ChunkPos, seq<nat>>)
    requires forall pos :: pos in before ==> before[pos] != []
    ensures forall pos :: Lookup(index, pos) == Lookup(before, pos) + if Between(low, high, pos) then [i] else []
    ensures forall pos :: pos in index ==> index[pos] != []
  {
    index := before;
    var z := low.z;
    while z <= high.z
      invariant low.z <= z
      invariant forall pos :: Lookup(index, pos) == Lookup(before, pos)
                  + if Between(low, high, pos) && pos.z < z then [i] else []
      invariant forall pos :: pos in index ==> index[pos] != []
      decreases high.z - z
    {
      var x := low.x;
      while x <= high.x
        invariant low.x <= x
        invariant forall pos :: Lookup(index, pos) == Lookup(before, pos)
                    + if Between(low, high, pos) && (pos.z < z || (pos.z == z && pos.x < x)) then [i] else []
        invariant forall pos :: pos in index ==> index[pos] != []
        decreases high.x - x
      {
        var pos := ChunkPos(x, z);
        index := index[pos := Lookup(index, pos) + [i]];
        x := x + 1;
      }
      z := z + 1;
    }
  }

  // ---- projection -----------------------------------------------------------

  /** The squared distance of (x, z) to every segment. */
  function Reaches(nodes: seq<Node>, x: real, z: real): (r: seq<real>)
    requires ValidNodes(nodes)
    ensures |r| == |nodes| - 1
    ensures forall i: nat :: i < |r| ==> ValidSegment(nodes, i) && r[i] == Reach(nodes, i, x, z)
  {
    seq(|nodes| - 1, i requires 0 <= i < |nodes| - 1 => assert ValidSegment(nodes, i); Reach(nodes, i, x, z))
  }

  ghost predicate Indices(segs: seq<nat>, n: nat) {
    forall k :: 0 <= k < |segs| ==> segs[k] < n
  }

  /** The earliest of the nearest segments among `segs`. */
  ghost function Scan(reach: seq<real>, segs: seq<nat>): (best: Option<nat>)
    requires Indices(segs, |reach|)
    ensures best.Some? <==> segs != []
    ensures best.Some? ==> best.value in segs && best.value < |reach|
  {
    if segs == [] then None
    else
      var last := segs[|segs| - 1];
      var best := Scan(reach, segs[..|segs| - 1]);
      if best.None? || reach[last] < reach[best.value] then Some(last) else best
  }

  function ProjectionOn(nodes: seq<Node>, length: real, best: Option<nat>, x: real, z: real): (p: Projection)
    requires ValidNodes(nodes) && length > 0.0 && (best.Some? ==> best.value + 1 < |nodes|)
    ensures best.None? ==> p == OffRoad
    ensures best.Some? ==> p.segment == best.value && ValidSegment(nodes, best.value)
                           && p.reach == Some(Reach(nodes, best.value, x, z))
  {
    if best.None? then OffRoad
    else
      var i := best.value;
      var (a, b) := (nodes[i], nodes[i + 1]);
      var t := Nearest(nodes, i, x, z);
      var len := Len(nodes, i);
      assert ValidSegment(nodes, i);
      Projection(Some(Reach(nodes, i, x, z)), i,
                 (a.distance + Mul(len, t)) / length * TAU,
                 (a.y + (b.y - a.y) * t).Floor + 1,
                 Dz(nodes, i) / len, -Dx(nodes, i) / len)
  }

  lemma DistancesGrow(nodes: seq<Node>, i: nat, j: nat)
    requires ValidNodes(nodes) && i <= j < |nodes|
    ensures nodes[i].distance <= nodes[j].distance
    ensures i < j ==> nodes[i].distance < nodes[j].distance
    decreases j
  {
    if i < j {
      DistancesGrow(nodes, i, j - 1);
      assert ValidSegment(nodes, j - 1);
    }
  }

  lemma LengthIsPositive(track: Track)
    requires Valid(track)
    ensures track.length > 0.0
  {
    DistancesGrow(track.nodes, 0, |track.nodes| - 1);
  }

  lemma {:induction false} FiledAreSegments(nodes: seq<Node>, n: nat, pos: ChunkPos)
    requires n < |nodes|
    ensures Indices(Filed(nodes, n, pos), n)
  {
    if n > 0 {
      FiledAreSegments(nodes, n - 1, pos);
    }
  }

  function Segments(track: Track, x: real, z: real): (segs: seq<nat>)
    requires Valid(track)
    ensures Indices(segs, |track.nodes| - 1)
  {
    var pos := FromBlock(x, z);
    FiledAreSegments(track.nodes, |track.nodes| - 1, pos);
    Lookup(track.index, pos)
  }

  /** The projection through the index: only the segments filed under the point's chunk are looked at. */
  ghost function ProjectSpec(track: Track, x: real, z: real): Projection
    requires Valid(track)
  {
    LengthIsPositive(track);
    ProjectionOn(track.nodes, track.length, Scan(Reaches(track.nodes, x, z), Segments(track, x, z)), x, z)
  }

  lemma OutsideTheIndex(track: Track, x: real, z: real)
    requires Valid(track) && FromBlock(x, z) !in track.index
    ensures ProjectSpec(track, x, z) == OffRoad
  {
    hide Reach;
  }

  method Project(track: Track, x: real, z: real) returns (best: Projection)
    requires Valid(track)
    ensures best == ProjectSpec(track, x, z)
  {
    LengthIsPositive(track);
    best := OffRoad;
    var segments := Segments(track, x, z);
    ghost var reaches := Reaches(track.nodes, x, z);
    hide Reach, ProjectionOn, ValidSegment, Filed;
    ghost var found: Option<nat> := None;
    for k := 0 to |segments|
      invariant found == Scan(reaches, segments[..k])
      invariant best == ProjectionOn(track.nodes, track.length, found, x, z)
    {
      assert segments[..k + 1][..k] == segments[..k];
      var i := segments[k];
      var reach := Reach(track.nodes, i, x, z);
      if best.reach.None? || reach < best.reach.value {
        best := ProjectionOn(track.nodes, track.length, Some(i), x, z);
        found := Some(i);
      }
    }
    assert segments[..|segments|] == segments;
  }

  // ---- the index against a scan of every segment ----------------------------

  ghost function Upto(n: nat): (r: seq<nat>)
    ensures |r| == n && forall i :: 0 <= i < n ==> r[i] == i
  {
    seq(n, i requires 0 <= i => i)
  }

  /** The projection a scan of all segments would report. */
  ghost function BruteForce(track: Track, x: real, z: real): Projection
    requires Valid(track)
  {
    LengthIsPositive(track);
    ProjectionOn(track.nodes, track.length, Scan(Reaches(track.nodes, x, z), Upto(|track.nodes| - 1)), x, z)
  }

  /** Within the margin of the segment's box. */
  predicate InBox(a: Node, b: Node, x: real, z: real) {
    && Min(a.x, b.x) - MARGIN <= x <= Max(a.x, b.x) + MARGIN
    && Min(a.z, b.z) - MARGIN <= z <= Max(a.z, b.z) + MARGIN
  }

  lemma BlockBetween(low: real, high: real, c: int) returns (b: real)
    requires low <= high && ChunkCoord(low) <= c <= ChunkCoord(high)
    ensures low <= b <= high && ChunkCoord(b) == c
  {
    if ChunkCoord(low) == c {
      b := low;
    } else {
      b := (c * 16) as real;
      assert b.Floor == c * 16;
      assert ToI32(low.Floor) < c * 16 <= ToI32(high.Floor);
    }
  }

  /** A segment is filed under exactly the chunks that some point within the margin of its box
      lies in. */
  lemma FiledMeetsBox(nodes: seq<Node>, i: nat, pos: ChunkPos)
    requires i + 1 < |nodes|
    ensures Files(nodes, i, pos) <==>
            exists x: real, z: real {:trigger FromBlock(x, z)} :: InBox(nodes[i], nodes[i + 1], x, z) && FromBlock(x, z) == pos
  {
    var (a, b) := (nodes[i], nodes[i + 1]);
    if Files(nodes, i, pos) {
      var x := BlockBetween(Min(a.x, b.x) - MARGIN, Max(a.x, b.x) + MARGIN, pos.x);
      var z := BlockBetween(Min(a.z, b.z) - MARGIN, Max(a.z, b.z) + MARGIN, pos.z);
      assert FromBlock(x, z) == pos;
    }
    hide ChunkCoord;
    if x: real, z: real {:trigger FromBlock(x, z)} :| InBox(a, b, x, z) && FromBlock(x, z) == pos {
      ChunkCoordMonotone(Min(a.x, b.x) - MARGIN, x);
      ChunkCoordMonotone(Min(a.z, b.z) - MARGIN, z);
      ChunkCoordMonotone(x, Max(a.x, b.x) + MARGIN);
      ChunkCoordMonotone(z, Max(a.z, b.z) + MARGIN);
    }
  }

  /** A segment within the margin of a point is filed under the point's chunk. */
  lemma NearSegmentsAreFiled(nodes: seq<Node>, i: nat, x: real, z: real)
    requires i + 1 < |nodes| && ValidSegment(nodes, i)
    requires Reach(nodes, i, x, z) <= Square(MARGIN)
    ensures Files(nodes, i, FromBlock(x, z))
  {
    var (a, b) := (nodes[i], nodes[i + 1]);
    var t := Nearest(nodes, i, x, z);
    BoxHolds(a.x, b.x, t, x);
    BoxHolds(a.z, b.z, t, z);
    ChunkCoordMonotone(Min(a.x, b.x) - MARGIN, x);
    ChunkCoordMonotone(Min(a.z, b.z) - MARGIN, z);
    ChunkCoordMonotone(x, Max(a.x, b.x) + MARGIN);
    ChunkCoordMonotone(z, Max(a.z, b.z) + MARGIN);
  }

  lemma BoxHolds(a: real, b: real, t: real, x: real)
    requires 0.0 <= t <= 1.0
    requires Square(x - a - Mul(b - a, t)) <= Square(MARGIN)
    ensures Min(a, b) - MARGIN <= x <= Max(a, b) + MARGIN
  {
    SquareBound(x - a - Mul(b - a, t), MARGIN);
    assert Mul(a - b, t) == -Mul(b - a, t);
    if a <= b {
      ScaleDown(b - a, t);
    } else {
      ScaleDown(a - b, t);
    }
  }

  ghost predicate NearAt(reach: seq<real>, best: Option<nat>)
    requires best.Some? ==> best.value < |reach|
  {
    best.Some? && reach[best.value] <= Square(MARGIN)
  }

  /** `filed` is `all` wherever `all` is within the margin, and beyond it otherwise. */
  ghost predicate Agreeing(reach: seq<real>, all: Option<nat>, filed: Option<nat>) {
    && (all.Some? ==> all.value < |reach|) && (filed.Some? ==> filed.value < |reach|)
    && (NearAt(reach, all) ==> filed == all)
    && (!NearAt(reach, all) ==> !NearAt(reach, filed))
  }

  ghost function Closer(reach: seq<real>, best: Option<nat>, i: nat): Option<nat>
    requires i < |reach| && (best.Some? ==> best.value < |reach|)
  {
    if best.None? || reach[i] < reach[best.value] then Some(i) else best
  }

  lemma CloserAgree(reach: seq<real>, all: Option<nat>, filed: Option<nat>, i: nat)
    requires i < |reach| && Agreeing(reach, all, filed)
    ensures Agreeing(reach, Closer(reach, all, i), Closer(reach, filed, i))
    ensures reach[i] > Square(MARGIN) ==> Agreeing(reach, Closer(reach, all, i), filed)
  {
    hide Square;
  }

  lemma ScanNext(reach: seq<real>, segs: seq<nat>, last: nat)
    requires Indices(segs, |reach|) && last < |reach|
    ensures Indices(segs + [last], |reach|) && Scan(reach, segs + [last]) == Closer(reach, Scan(reach, segs), last)
  {
    assert (segs + [last])[..|segs|] == segs;
  }

  /** Dropping candidates that are all beyond the margin does not change a result within it. */
  lemma {:induction false} ScansAgree(nodes: seq<Node>, n: nat, reach: seq<real>, pos: ChunkPos)
    requires n < |nodes| && n <= |reach|
    requires forall i: nat :: i < n && reach[i] <= Square(MARGIN) ==> Files(nodes, i, pos)
    ensures Indices(Filed(nodes, n, pos), |reach|)
    ensures Agreeing(reach, Scan(reach, Upto(n)), Scan(reach, Filed(nodes, n, pos)))
  {
    hide Square, Files, Agreeing, Scan, Closer, Filed, Upto, Indices;
    if n == 0 {
      NothingFiled(nodes, reach, pos);
    } else {
      var (all, filed) := (Upto(n - 1), Filed(nodes, n - 1, pos));
      ScansAgree(nodes, n - 1, reach, pos);
      FiledNext(nodes, n, pos);
      UptoNext(n, |reach|);
      ScanNext(reach, all, n - 1);
      ScanNext(reach, filed, n - 1);
      CloserAgree(reach, Scan(reach, all), Scan(reach, filed), n - 1);
    }
  }

  lemma NothingFiled(nodes: seq<Node>, reach: seq<real>, pos: ChunkPos)
    requires nodes != []
    ensures Indices(Filed(nodes, 0, pos), |reach|)
    ensures Agreeing(reach, Scan(reach, Upto(0)), Scan(reach, Filed(nodes, 0, pos)))
  {}

  lemma FiledNext(nodes: seq<Node>, n: nat, pos: ChunkPos)
    requires 0 < n < |nodes|
    ensures Filed(nodes, n, pos) == if Files(nodes, n - 1, pos) then Filed(nodes, n - 1, pos) + [n - 1] else Filed(nodes, n - 1, pos)
  {}

  lemma UptoNext(n: nat, m: nat)
    requires 0 < n <= m
    ensures Upto(n) == Upto(n - 1) + [n - 1] && Indices(Upto(n - 1), m)
  {}

  /** Some point of the road lies within `MARGIN` of (x, z). */
  ghost predicate WithinMargin(track: Track, x: real, z: real) {
    exists i: nat, s: real :: OnRoadWithin(track, x, z, i, s)
  }

  ghost predicate OnRoadWithin(track: Track, x: real, z: real, i: nat, s: real) {
    i + 1 < |track.nodes| && 0.0 <= s <= 1.0 && ReachAt(track.nodes, i, x, z, s) <= Square(MARGIN)
  }

  lemma {:induction false} ScanIsNearest(reach: seq<real>, n: nat)
    requires n <= |reach|
    ensures var best := Scan(reach, Upto(n));
            forall i: nat :: i < n ==>
              && best.Some?
              && reach[best.value] <= reach[i]
              && (i < best.value ==> reach[best.value] < reach[i])
  {
    if n > 0 {
      ScanIsNearest(reach, n - 1);
      assert Upto(n)[..n - 1] == Upto(n - 1);
    }
  }

  /** A scan of all segments reports the least distance over every point of the
      road, reached on the earliest such segment. */
  lemma BruteForceIsNearest(track: Track, x: real, z: real, i: nat, s: real)
    requires Valid(track) && i + 1 < |track.nodes| && 0.0 <= s <= 1.0
    ensures var p := BruteForce(track, x, z);
            && p.reach.Some?
            && p.segment + 1 < |track.nodes|
            && 0.0 <= p.reach.value <= ReachAt(track.nodes, i, x, z, s)
            && (i < p.segment ==> p.reach.value < ReachAt(track.nodes, i, x, z, s))
            && p.reach.value == Reaches(track.nodes, x, z)[p.segment]
  {
    var reach := Reaches(track.nodes, x, z);
    ScanIsNearest(reach, |reach|);
    var best := Scan(reach, Upto(|reach|)).value;
    assert reach[best] <= reach[i];
    ReachIsLeast(track.nodes, i, x, z, s);
    ReachIsLeast(track.nodes, best, x, z, s);
  }

  /** The index loses nothing: within the margin the two projections are equal,
      beyond it the indexed one never reports a distance within the margin. */
  lemma IndexAgreesWithScan(track: Track, x: real, z: real)
    requires Valid(track)
    ensures WithinMargin(track, x, z) ==> ProjectSpec(track, x, z) == BruteForce(track, x, z)
    ensures WithinMargin(track, x, z) <==> var r := ProjectSpec(track, x, z).reach; r.Some? && r.value <= Square(MARGIN)
  {
    var (nodes, n) := (track.nodes, |track.nodes| - 1);
    var reach := Reaches(nodes, x, z);
    var all := Scan(reach, Upto(n));
    var filed := Scan(reach, Segments(track, x, z));
    TrackScansAgree(track, x, z);
    assert BruteForce(track, x, z).reach == Some(reach[all.value]);
    assert filed.Some? ==> ProjectSpec(track, x, z).reach == Some(reach[filed.value]);
    hide ProjectionOn, ValidNodes, Reach, ReachAt, Scan, Segments, Upto, Square;
    if WithinMargin(track, x, z) {
      var i: nat, s: real :| OnRoadWithin(track, x, z, i, s);
      WithinIsNear(track, x, z, i, s);
    }
    if NearAt(reach, all) {
      assert OnRoadWithin(track, x, z, all.value, Nearest(nodes, all.value, x, z)) by { NearIsWithin(track, x, z, all.value); }
    }
  }

  lemma WithinIsNear(track: Track, x: real, z: real, i: nat, s: real)
    requires Valid(track) && OnRoadWithin(track, x, z, i, s)
    ensures var reach := Reaches(track.nodes, x, z);
            Indices(Upto(|track.nodes| - 1), |reach|) && NearAt(reach, Scan(reach, Upto(|track.nodes| - 1)))
  {
    BruteForceIsNearest(track, x, z, i, s);
    hide Square, ReachAt, Scan;
  }

  lemma NearIsWithin(track: Track, x: real, z: real, i: nat)
    requires Valid(track) && i + 1 < |track.nodes| && Reaches(track.nodes, x, z)[i] <= Square(MARGIN)
    ensures OnRoadWithin(track, x, z, i, Nearest(track.nodes, i, x, z))
  {
    assert ValidSegment(track.nodes, i);
    hide Square, ReachAt;
  }

  lemma TrackScansAgree(track: Track, x: real, z: real)
    requires Valid(track)
    ensures var reach := Reaches(track.nodes, x, z);
            && Indices(Upto(|track.nodes| - 1), |reach|) && Indices(Segments(track, x, z), |reach|)
            && Agreeing(reach, Scan(reach, Upto(|track.nodes| - 1)), Scan(reach, Segments(track, x, z)))
  {
    var (nodes, n, pos) := (track.nodes, |track.nodes| - 1, FromBlock(x, z));
    var reach := Reaches(nodes, x, z);
    forall i: nat | i < n && reach[i] <= Square(MARGIN) ensures Files(nodes, i, pos) {
      NearSegmentsAreFiled(nodes, i, x, z);
    }
    assert Segments(track, x, z) == Filed(nodes, n, pos);
    hide Square, Files, ValidNodes, Scan, Agreeing;
    ScansAgree(nodes, n, reach, pos);
  }

  // ---- points along the course ----------------------------------------------

  /** The Euclidean remainder modulo a full turn. */
  function Wrap(phase: real): (r: real)
    ensures 0.0 <= r < TAU
  {
    var q := (phase / TAU).Floor as real;
    assert phase / TAU - 1.0 < q <= phase / TAU;
    assert (phase / TAU) * TAU == phase;
    phase - q * TAU
  }

  /** How many leading nodes have a distance of at most d, by bisection. */
  function PartitionPoint(nodes: seq<Node>, d: real, lo: nat, hi: nat): (k: nat)
    requires ValidNodes(nodes) && lo <= hi <= |nodes|
    requires forall i :: 0 <= i < lo ==> nodes[i].distance <= d
    requires forall i :: hi <= i < |nodes| ==> nodes[i].distance > d
    ensures lo <= k <= hi
    ensures forall i :: 0 <= i < |nodes| ==> (i < k <==> nodes[i].distance <= d)
    decreases hi - lo
  {
    if lo == hi then lo
    else
      var mid := (lo + hi) / 2;
      if nodes[mid].distance <= d then
        assert forall i :: 0 <= i < mid + 1 ==> nodes[i].distance <= d by {
          forall i | 0 <= i < mid + 1 ensures nodes[i].distance <= d { DistancesGrow(nodes, i, mid); }
        }
        PartitionPoint(nodes, d, mid + 1, hi)
      else
        assert forall i :: mid <= i < |nodes| ==> nodes[i].distance > d by {
          forall i | mid <= i < |nodes| ensures nodes[i].distance > d { DistancesGrow(nodes, mid, i); }
        }
        PartitionPoint(nodes, d, lo, mid)
  }

  /** The distance along the course that a phase stands for. */
  function Along(track: Track, phase: real): real {
    Mul(track.length, Wrap(phase) / TAU)
  }

  /** The index of the segment that holds the course at a distance. */
  function SegmentHolding(track: Track, d: real): (i: nat)
    requires Valid(track) && 0.0 <= d <= track.length
    ensures i + 1 < |track.nodes|
    ensures track.nodes[i].distance <= d <= track.nodes[i + 1].distance
  {
    var k := PartitionPoint(track.nodes, d, 0, |track.nodes|);
    var before := if k == 0 then 0 else k - 1;
    if before < |track.nodes| - 2 then before else |track.nodes| - 2
  }

  /** The segment at a phase and the fraction of it already passed. */
  function SegmentAt(track: Track, phase: real): (r: (nat, real))
    requires Valid(track)
    ensures r.0 + 1 < |track.nodes| && 0.0 <= r.1 <= 1.0
    ensures track.nodes[r.0].distance + Mul(Len(track.nodes, r.0), r.1) == Along(track, phase)
  {
    LengthIsPositive(track);
    AlongIsOnCourse(track, phase);
    var d := Along(track, phase);
    var i := SegmentHolding(track, d);
    var (num, len) := (d - track.nodes[i].distance, Len(track.nodes, i));
    assert ValidSegment(track.nodes, i);
    Quotient(num, len);
    (i, num / len)
  }

  lemma AlongIsOnCourse(track: Track, phase: real)
    requires Valid(track) && track.length > 0.0
    ensures 0.0 <= Along(track, phase) <= track.length
  {
    Quotient(Wrap(phase), TAU);
    ScaleDown(track.length, Wrap(phase) / TAU);
  }

  /** The road's centre at a phase, seen from above. */
  function CentreAt(track: Track, phase: real): (real, real)
    requires Valid(track)
  {
    var (i, t) := SegmentAt(track, phase);
    (track.nodes[i].x + Mul(Dx(track.nodes, i), t), track.nodes[i].z + Mul(Dz(track.nodes, i), t))
  }

  /** Projecting the centre of the road at a phase finds the road at distance 0,
      and gives the phase back unless an earlier segment passes through the same point. */
  lemma CentreProjectsBack(track: Track, phase: real)
    requires Valid(track)
    ensures var (x, z) := CentreAt(track, phase);
            var p := ProjectSpec(track, x, z);
            p.reach == Some(0.0) && p.segment <= SegmentAt(track, phase).0
            && (p.segment == SegmentAt(track, phase).0 ==> p.phase == Wrap(phase))
  {
    var (i, t) := SegmentAt(track, phase);
    var (x, z) := CentreAt(track, phase);
    assert ReachAt(track.nodes, i, x, z, t) == 0.0;
    assert OnRoadWithin(track, x, z, i, t);
    IndexAgreesWithScan(track, x, z);
    BruteForceIsNearest(track, x, z, i, t);
    if BruteForce(track, x, z).segment == i {
      CentrePhase(track, phase);
    }
  }

  lemma CentrePhase(track: Track, phase: real)
    requires Valid(track)
    requires var (x, z) := CentreAt(track, phase); Reaches(track.nodes, x, z)[SegmentAt(track, phase).0] == 0.0
    ensures var (x, z) := CentreAt(track, phase);
            track.length > 0.0
            && ProjectionOn(track.nodes, track.length, Some(SegmentAt(track, phase).0), x, z).phase == Wrap(phase)
  {
    var (i, t) := SegmentAt(track, phase);
    var (x, z) := CentreAt(track, phase);
    assert ValidSegment(track.nodes, i);
    var (dx, dz, s) := (Dx(track.nodes, i), Dz(track.nodes, i), Nearest(track.nodes, i, x, z));
    SameParameter(dx, dz, Len(track.nodes, i), t, s);
    LengthIsPositive(track);
    PhaseOfDistance(track.length, Wrap(phase));
  }

  lemma SameParameter(dx: real, dz: real, len: real, t: real, s: real)
    requires len > 0.0 && Square(len) == Square(dx) + Square(dz)
    requires Square(Mul(dx, t) - Mul(dx, s)) + Square(Mul(dz, t) - Mul(dz, s)) == 0.0
    ensures t == s
  {
    assert Square(Mul(dx, t) - Mul(dx, s)) == Mul(Square(dx), Square(t - s));
    assert Square(Mul(dz, t) - Mul(dz, s)) == Mul(Square(dz), Square(t - s));
    assert Mul(Square(len), Square(t - s)) == Mul(Square(dx), Square(t - s)) + Mul(Square(dz), Square(t - s));
  }

  lemma PhaseOfDistance(length: real, w: real)
    requires length > 0.0
    ensures Mul(length, w / TAU) / length * TAU == w
  {
    Cancel(length, w / TAU);
  }

  // ---- the order of construction --------------------------------------------

  predicate NonEmpty(index: map<ChunkPos, seq<nat>>) {
    forall pos :: pos in index ==> index[pos] != []
  }

  /** Lexicographic order on (first segment, x, z). */
  predicate Ahead(index: map<ChunkPos, seq<nat>>, p: ChunkPos, q: ChunkPos)
    requires NonEmpty(index) && p in index && q in index
  {
    var (i, j) := (index[p][0], index[q][0]);
    i < j || (i == j && (p.x < q.x || (p.x == q.x && p.z < q.z)))
  }

  /** The chunks `keys`, each once, the last one first along the course. */
  ghost predicate CourseOrder(index: map<ChunkPos, seq<nat>>, keys: set<ChunkPos>, chunks: seq<ChunkPos>)
    requires NonEmpty(index) && keys <= index.Keys
  {
    && (forall pos :: pos in chunks <==> pos in keys)
    && (forall i, j :: 0 <= i < j < |chunks| ==> chunks[i] in keys && chunks[j] in keys && Ahead(index, chunks[j], chunks[i]))
  }

  function Insert(index: map<ChunkPos, seq<nat>>, ghost keys: set<ChunkPos>, p: ChunkPos, chunks: seq<ChunkPos>): (r: seq<ChunkPos>)
    requires NonEmpty(index) && keys <= index.Keys && p in index && p !in keys
    requires CourseOrder(index, keys, chunks)
    ensures CourseOrder(index, keys + {p}, r)
  {
    if chunks == [] then [p]
    else
      assert chunks[0] in keys;
      if Ahead(index, p, chunks[0]) then
        assert forall i :: 1 <= i < |chunks| ==> chunks[i] in chunks[1..];
        assert forall pos :: pos in chunks[1..] <==> pos in keys - {chunks[0]};
        var rest := Insert(index, keys - {chunks[0]}, p, chunks[1..]);
        assert forall pos :: pos in [chunks[0]] + rest <==> pos == chunks[0] || pos in rest;
        [chunks[0]] + rest
      else
        assert forall pos :: pos in [p] + chunks <==> pos == p || pos in chunks;
        [p] + chunks
  }

  lemma {:induction false} CourseOrderIsUnique(index: map<ChunkPos, seq<nat>>, keys: set<ChunkPos>, a: seq<ChunkPos>, b: seq<ChunkPos>)
    requires NonEmpty(index) && keys <= index.Keys
    requires CourseOrder(index, keys, a) && CourseOrder(index, keys, b)
    ensures a == b
    decreases |a|
  {
    assert b != [] ==> b[0] in keys;
    if a != [] {
      assert a[0] in keys && a[0] in b;
      assert b != [] && b[0] in keys && b[0] in a;
      assert a[0] == b[0];
      var rest := keys - {a[0]};
      assert forall pos :: pos in a[1..] <==> pos in rest;
      assert forall pos :: pos in b[1..] <==> pos in rest;
      CourseOrderIsUnique(index, rest, a[1..], b[1..]);
    }
  }

  ghost function Ordered(index: map<ChunkPos, seq<nat>>, keys: set<ChunkPos>): (chunks: seq<ChunkPos>)
    requires NonEmpty(index) && keys <= index.Keys
    ensures CourseOrder(index, keys, chunks)
  {
    if keys == {} then []
    else
      var p :| p in keys;
      Insert(index, keys - {p}, p, Ordered(index, keys - {p}))
  }

  /** Every chunk of the index, so that popping from the end follows the course. */
  ghost function ChunkList(track: Track): (chunks: seq<ChunkPos>)
    requires Valid(track)
    ensures CourseOrder(track.index, track.index.Keys, chunks)
  {
    Ordered(track.index, track.index.Keys)
  }

  method Chunks(track: Track) returns (chunks: seq<ChunkPos>)
    requires Valid(track)
    ensures chunks == ChunkList(track)
  {
    var rest := track.index.Keys;
    chunks := [];
    while rest != {}
      invariant rest <= track.index.Keys
      invariant CourseOrder(track.index, track.index.Keys - rest, chunks)
      decreases rest
    {
      var p :| p in rest;
      chunks := Insert(track.index, track.index.Keys - rest, p, chunks);
      rest := rest - {p};
      assert track.index.Keys - rest == track.index.Keys - (rest + {p}) + {p};
    }
    CourseOrderIsUnique(track.index, track.index.Keys, chunks, ChunkList(track));
  }
}
