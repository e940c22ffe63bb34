/** What a projection reports, in terms of the road alone: the one nearest point of one
    segment, its height, the way to it along the course, and the direction across. */
module Projections {
  import opened Options
  import opened Reals
  import opened TrackIndex

  /** The point at parameter s is the nearest of its segment to (x, z). */
  ghost predicate IsFoot(nodes: seq<Node>, i: nat, x: real, z: real, s: real) {
    && i + 1 < |nodes| && 0.0 <= s <= 1.0
    && forall u: real {:trigger ReachAt(nodes, i, x, z, u)} :: 0.0 <= u <= 1.0 ==> ReachAt(nodes, i, x, z, s) <= ReachAt(nodes, i, x, z, u)
  }

  /** The projection reports the road's point at parameter s of its segment: the squared
      distance to it; its height, one above the block it stands in; the phase at which the
      course passes through it; and the unit vector square to the segment, to its right. */
  ghost predicate Reports(track: Track, x: real, z: real, p: Projection, s: real)
    requires p.segment + 1 < |track.nodes|
  {
    var (nodes, i) := (track.nodes, p.segment);
    var (a, b) := (nodes[i], nodes[i + 1]);
    && p.reach == Some(ReachAt(nodes, i, x, z, s))
    && (p.y - 1) as real <= a.y + Mul(b.y - a.y, s) < p.y as real
    && Mul(p.phase / TAU, track.length) == a.distance + Mul(b.distance - a.distance, s)
    && Square(p.nx) + Square(p.nz) == 1.0
    && Mul(p.nx, Dx(nodes, i)) + Mul(p.nz, Dz(nodes, i)) == 0.0
    && Mul(p.nx, Dz(nodes, i)) - Mul(p.nz, Dx(nodes, i)) > 0.0
  }

  // ---- the nearest point is one ---------------------------------------------------

  lemma Midpoint(a: real, b: real)
    ensures 2.0 * Square(a) + 2.0 * Square(b) == 4.0 * Square((a + b) / 2.0) + Square(a - b)
  {
    var m := (a + b) / 2.0;
    assert 4.0 * Mul(m, m) == Mul(a + b, a + b);
  }

  lemma AxisGap(w: real, d: real, s: real, u: real)
    ensures var (a, b, m) := (w - Mul(d, s), w - Mul(d, u), w - Mul(d, (s + u) / 2.0));
            2.0 * Square(a) + 2.0 * Square(b) == 4.0 * Square(m) + Mul(Square(d), Square(s - u))
  {
    var (a, b, m) := (w - Mul(d, s), w - Mul(d, u), w - Mul(d, (s + u) / 2.0));
    Midpoint(a, b);
    assert m == (a + b) / 2.0;
    assert a - b == Mul(d, u - s);
    assert Square(Mul(d, u - s)) == Mul(Square(d), Square(s - u));
  }

  lemma FootIsOne(nodes: seq<Node>, i: nat, x: real, z: real, s: real, u: real)
    requires i + 1 < |nodes| && ValidSegment(nodes, i) && IsFoot(nodes, i, x, z, s) && IsFoot(nodes, i, x, z, u)
    ensures s == u
  {
    var (dx, dz, gap) := (Dx(nodes, i), Dz(nodes, i), Square(s - u));
    AxisGap(x - nodes[i].x, dx, s, u);
    AxisGap(z - nodes[i].z, dz, s, u);
    assert ReachAt(nodes, i, x, z, s) <= ReachAt(nodes, i, x, z, (s + u) / 2.0);
    assert ReachAt(nodes, i, x, z, u) <= ReachAt(nodes, i, x, z, (s + u) / 2.0);
    assert Mul(Square(dx) + Square(dz), gap) == Mul(Square(dx), gap) + Mul(Square(dz), gap);
    assert Mul(Square(dx) + Square(dz), gap) <= 0.0;
    assert Square(dx) + Square(dz) > 0.0;
  }

  lemma NearestIsFoot(nodes: seq<Node>, i: nat, x: real, z: real)
    requires i + 1 < |nodes| && ValidSegment(nodes, i)
    ensures IsFoot(nodes, i, x, z, Nearest(nodes, i, x, z))
  {
    forall u: real | 0.0 <= u <= 1.0 ensures Reach(nodes, i, x, z) <= ReachAt(nodes, i, x, z, u) {
      ReachIsLeast(nodes, i, x, z, u);
    }
  }

  // ---- the segment reported -------------------------------------------------------

  ghost predicate Rising(segs: seq<nat>) {
    forall j, k :: 0 <= j < k < |segs| ==> segs[j] < segs[k]
  }

  lemma {:induction false} FiledRises(nodes: seq<Node>, n: nat, pos: ChunkPos)
    requires n < |nodes|
    ensures Rising(Filed(nodes, n, pos)) && Indices(Filed(nodes, n, pos), n)
  {
    if n > 0 {
      FiledRises(nodes, n - 1, pos);
    }
  }

  /** A scan of rising indices finds the least value, at the first of them that has it. */
  lemma {:induction false} ScanIsLeast(reach: seq<real>, segs: seq<nat>)
    requires Indices(segs, |reach|) && Rising(segs)
    ensures var best := Scan(reach, segs);
            forall i :: i in segs ==>
              best.Some? && reach[best.value] <= reach[i] && (i < best.value ==> reach[best.value] < reach[i])
  {
    if segs != [] {
      var (front, last) := (segs[..|segs| - 1], segs[|segs| - 1]);
      ScanIsLeast(reach, front);
      forall i | i in segs ensures i in front || i == last {
        assert segs == front + [last];
      }
    }
  }

  // ---- the report -----------------------------------------------------------------

  lemma Regroup(a: real, b: real, c: real)
    ensures Mul(a, Mul(b, c)) == Mul(Mul(a, b), c) && Mul(a, b) == Mul(b, a) && Mul(a, -b) == -Mul(a, b)
  {}

  lemma SquareOfProduct(a: real, b: real)
    ensures Square(Mul(a, b)) == Mul(Square(a), Square(b)) && Mul(a, a) == Square(a)
  {}

  lemma Distribute(a: real, b: real, c: real)
    ensures Mul(a + b, c) == Mul(a, c) + Mul(b, c)
  {}

  /** A quotient by the length, turned a quarter: a unit vector across. */
  lemma Turned(nx: real, nz: real, dx: real, dz: real, len: real)
    requires len > 0.0 && Square(len) == Square(dx) + Square(dz) && dz == Mul(nx, len) && dx == -Mul(nz, len)
    ensures Square(nx) + Square(nz) == 1.0
    ensures Mul(nx, dx) + Mul(nz, dz) == 0.0
    ensures Mul(nx, dz) - Mul(nz, dx) > 0.0
  {
    SquareOfProduct(nx, len);
    SquareOfProduct(nz, len);
    assert Square(dx) == Square(-dx);
    UnitSquare(nx, nz, len);
    Regroup(nx, nz, len);
    Regroup(nz, nx, len);
    Regroup(nx, nx, len);
    Regroup(nz, nz, len);
    Regroup(nx, Mul(nz, len), 1.0);
    Regroup(nz, Mul(nz, len), 1.0);
    SquareOfProduct(nx, nx);
    SquareOfProduct(nz, nz);
    Distribute(Square(nx), Square(nz), len);
    assert Mul(1.0, len) > 0.0;
    hide Mul, Square;
  }

  lemma Across(dx: real, dz: real, len: real)
    requires len > 0.0 && Square(len) == Square(dx) + Square(dz)
    ensures var (nx, nz) := (dz / len, -dx / len);
            && Square(nx) + Square(nz) == 1.0 && Mul(nx, dx) + Mul(nz, dz) == 0.0
            && Mul(nx, dz) - Mul(nz, dx) > 0.0
  {
    Quotient(dz, len);
    Quotient(-dx, len);
    assert Mul(dz / len, len) == dz && Mul(-dx / len, len) == -dx;
    hide Square;
    Turned(dz / len, -dx / len, dx, dz, len);
  }

  lemma UnitSquare(nx: real, nz: real, len: real)
    requires len > 0.0 && Square(len) == Mul(Square(nx), Square(len)) + Mul(Square(nz), Square(len))
    ensures Square(nx) + Square(nz) == 1.0
  {
    var u := Square(nx) + Square(nz);
    Distribute(Square(nx), Square(nz), Square(len));
    assert Mul(u - 1.0, Square(len)) == 0.0 && Mul(1.0 - u, Square(len)) == 0.0;
    hide Mul, Square;
  }

  lemma PhaseBack(d: real, length: real)
    requires length > 0.0
    ensures Mul(d / length * TAU / TAU, length) == d
  {
    Quotient(d, length);
  }

  lemma FootIsReported(track: Track, x: real, z: real, i: nat)
    requires Valid(track) && track.length > 0.0 && i + 1 < |track.nodes|
    ensures ValidSegment(track.nodes, i)
    ensures Reports(track, x, z, ProjectionOn(track.nodes, track.length, Some(i), x, z), Nearest(track.nodes, i, x, z))
  {
    var nodes := track.nodes;
    assert ValidSegment(nodes, i);
    var t := Nearest(nodes, i, x, z);
    Across(Dx(nodes, i), Dz(nodes, i), Len(nodes, i));
    PhaseBack(nodes[i].distance + Mul(Len(nodes, i), t), track.length);
    var (a, b) := (nodes[i], nodes[i + 1]);
    assert Mul(b.y - a.y, t) == (b.y - a.y) * t;
    var p := ProjectionOn(nodes, track.length, Some(i), x, z);
    assert p.y == (a.y + Mul(b.y - a.y, t)).Floor + 1;
    assert p.phase == (a.distance + Mul(Len(nodes, i), t)) / track.length * TAU;
    assert p.nx == Dz(nodes, i) / Len(nodes, i) && p.nz == -Dx(nodes, i) / Len(nodes, i);
    hide Square, Mul, Nearest, ReachAt, Valid, ProjectionOn;
  }

  /** The projection of any point of an indexed chunk: of all the segments filed there the
      first of the nearest, and on it the one nearest point, reported in every component. */
  lemma ProjectionIsTheFoot(track: Track, x: real, z: real)
    requires Valid(track) && FromBlock(x, z) in track.index
    ensures var p := ProjectSpec(track, x, z);
      && p.reach.Some? && p.segment + 1 < |track.nodes| && p.segment in track.index[FromBlock(x, z)]
      && (forall i, s: real :: i in track.index[FromBlock(x, z)] && 0.0 <= s <= 1.0 ==>
           && i + 1 < |track.nodes| && p.reach.value <= ReachAt(track.nodes, i, x, z, s)
           && (i < p.segment ==> p.reach.value < ReachAt(track.nodes, i, x, z, s)))
      && (exists s: real :: IsFoot(track.nodes, p.segment, x, z, s))
      && (forall s: real :: IsFoot(track.nodes, p.segment, x, z, s) ==> Reports(track, x, z, p, s))
  {
    var (nodes, segs) := (track.nodes, Segments(track, x, z));
    var reach := Reaches(nodes, x, z);
    LengthIsPositive(track);
    FiledRises(nodes, |nodes| - 1, FromBlock(x, z));
    assert segs == track.index[FromBlock(x, z)] && segs != [];
    ScanIsLeast(reach, segs);
    var best := Scan(reach, segs).value;
    assert ValidSegment(nodes, best);
    FootIsReported(track, x, z, best);
    NearestIsFoot(nodes, best, x, z);
    var p := ProjectSpec(track, x, z);
    assert p == ProjectionOn(nodes, track.length, Some(best), x, z);
    hide Scan, ReachAt, Nearest, Reports, Valid, ProjectionOn, IsFoot;
    forall i, s: real | i in segs && 0.0 <= s <= 1.0
      ensures i + 1 < |nodes| && p.reach.value <= ReachAt(nodes, i, x, z, s)
      ensures i < p.segment ==> p.reach.value < ReachAt(nodes, i, x, z, s)
    {
      assert reach[i] == Reach(nodes, i, x, z);
      ReachIsLeast(nodes, i, x, z, s);
    }
    forall s: real | IsFoot(nodes, p.segment, x, z, s) ensures Reports(track, x, z, p, s) {
      FootIsOne(nodes, best, x, z, s, Nearest(nodes, best, x, z));
    }
  }
}
