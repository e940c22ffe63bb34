/** Gates and progress of void-demo/src/kart.rs: which steps along the course count
    a gate, and how far a kart must travel for a gate count.

    A phase is an angle along the course, only its value modulo a full turn matters. */
module Gates {
  import opened Options
  import opened Reals
  import opened TrackIndex

  const HALF: real := TAU / 2.0
  const SECTOR: real := TAU / 8.0

  function Turns(k: int): real {
    k as real * TAU
  }

  lemma TurnsAdd(j: int, k: int)
    ensures Turns(j + k) == Turns(j) + Turns(k) && Turns(j - k) == Turns(j) - Turns(k) && Turns(-k) == -Turns(k)
  {}

  lemma WrapIsCongruent(x: real)
    ensures exists k: int :: Wrap(x) == x + Turns(k)
  {
    var k := -(x / TAU).Floor;
    assert Wrap(x) == x + Turns(k);
  }

  lemma WrapIsUnique(x: real, r: real, k: int)
    requires 0.0 <= r < TAU && r == x + Turns(k)
    ensures Wrap(x) == r
  {
    var f := (x / TAU).Floor;
    assert f as real <= x / TAU < f as real + 1.0;
    assert (f as real) * TAU <= x < (f as real + 1.0) * TAU;
    assert f == -k;
  }

  // ---- steps and gates ------------------------------------------------------------------

  /** The shorter way round from the old phase to the new. */
  function Delta(old_: real, now: real): (d: real)
    ensures -HALF <= d < HALF
  {
    Wrap(now - old_ + HALF) - HALF
  }

  function TargetOf(gate: nat): (t: real)
    ensures 0.0 <= t < TAU
  {
    (gate % GATES) as real * SECTOR
  }

  /** How far ahead the gate is. */
  function ToGate(phase: real, gate: nat): real {
    Wrap(TargetOf(gate) - phase)
  }

  predicate CrossesGate(old_: real, now: real, gate: nat) {
    var delta := Delta(old_, now);
    delta > 0.0 && 0.0 < ToGate(old_, gate) <= delta
  }

  datatype Driver = Driver(phase: real, nextGate: nat, travelled: real)

  /** One call of `drive`: a move along the road, or `None` when the guardrail stops it. */
  function Drive(d: Driver, move: Option<real>): Driver {
    match move
    case None => d
    case Some(now) =>
      Driver(now, if CrossesGate(d.phase, now, d.nextGate) then d.nextGate + 1 else d.nextGate,
             d.travelled + Abs(Delta(d.phase, now)))
  }

  function DriveAll(d: Driver, moves: seq<Option<real>>): Driver {
    if moves == [] then d else Drive(DriveAll(d, moves[..|moves| - 1]), moves[|moves| - 1])
  }

  // ---- distance around the circle ------------------------------------------------------

  /** The distance of two angles whose difference is x. */
  function Circle(x: real): (c: real)
    ensures 0.0 <= c <= HALF
  {
    if Wrap(x) <= HALF then Wrap(x) else TAU - Wrap(x)
  }

  lemma CircleIsLeast(x: real, k: int)
    ensures Circle(x) <= Abs(x + Turns(k))
  {
    WrapIsCongruent(x);
    var j: int :| Wrap(x) == x + Turns(j);
    var r := Wrap(x);
    assert x + Turns(k) == r + Turns(k - j);
    if k - j >= 0 {
      assert Turns(k - j) >= 0.0;
    } else {
      assert Turns(k - j) <= -TAU;
    }
  }

  lemma CircleIsAttained(x: real) returns (k: int)
    ensures Circle(x) == Abs(x + Turns(k))
  {
    WrapIsCongruent(x);
    var j: int :| Wrap(x) == x + Turns(j);
    if Wrap(x) <= HALF {
      k := j;
    } else {
      k := j - 1;
      assert x + Turns(k) == Wrap(x) - TAU;
    }
  }

  lemma CircleTriangle(x: real, y: real)
    ensures Circle(x + y) <= Circle(x) + Circle(y)
  {
    hide Circle, Turns, Wrap;
    var j := CircleIsAttained(x);
    var k := CircleIsAttained(y);
    CircleIsLeast(x + y, j + k);
    TurnsAdd(j, k);
  }

  lemma CircleOfCongruent(x: real, y: real, k: int)
    requires y == x + Turns(k)
    ensures Circle(y) <= Abs(x) && Circle(x) == Circle(y)
  {
    hide Circle, Turns, Wrap;
    CircleIsLeast(y, -k);
    var a := CircleIsAttained(x);
    CircleIsLeast(y, a - k);
    var b := CircleIsAttained(y);
    CircleIsLeast(x, b + k);
    TurnsAdd(a, k);
    TurnsAdd(b, k);
  }

  lemma DeltaIsCongruent(old_: real, now: real) returns (k: int)
    ensures now == old_ + Delta(old_, now) + Turns(k)
  {
    WrapIsCongruent(now - old_ + HALF);
    var j: int :| Wrap(now - old_ + HALF) == now - old_ + HALF + Turns(j);
    k := -j;
    assert Turns(k) == -Turns(j);
  }

  /** The phase's distance from a gate. */
  function FromGate(phase: real, gate: nat): (d: real)
    ensures d >= 0.0
  {
    Circle(phase - TargetOf(gate))
  }

  lemma NeighbouringGates(gate: nat)
    ensures Circle(TargetOf(gate + 1) - TargetOf(gate)) == SECTOR
  {
    if gate % GATES == GATES - 1 {
      assert (gate + 1) % GATES == 0;
      WrapIsUnique(TargetOf(gate + 1) - TargetOf(gate), SECTOR, 1);
    } else {
      assert (gate + 1) % GATES == gate % GATES + 1;
      WrapIsUnique(TargetOf(gate + 1) - TargetOf(gate), SECTOR, 0);
    }
  }

  /** A move changes the distance from any gate by no more than its length. */
  lemma MoveIsShort(old_: real, now: real, gate: nat)
    ensures FromGate(now, gate) <= FromGate(old_, gate) + Abs(Delta(old_, now))
  {
    var d := Delta(old_, now);
    var k := DeltaIsCongruent(old_, now);
    CircleTriangle(old_ - TargetOf(gate), d);
    CircleOfCongruent(old_ - TargetOf(gate) + d, now - TargetOf(gate), k);
    CircleIsLeast(d, 0);
    assert Turns(0) == 0.0;
    hide Circle, Turns, Delta, TargetOf;
  }

  /** Between two gates lies an eighth of a turn, whichever way one goes. */
  lemma GatesAreApart(phase: real, gate: nat)
    ensures FromGate(phase, gate) + ToGate(phase, gate + 1) >= SECTOR
  {
    var (a, b) := (phase - TargetOf(gate), TargetOf(gate + 1) - phase);
    NeighbouringGates(gate);
    CircleTriangle(a, b);
    assert a + b == TargetOf(gate + 1) - TargetOf(gate);
    AheadIsFar(b);
    hide Circle, TargetOf, Wrap;
  }

  lemma AheadIsFar(x: real)
    ensures Circle(x) <= Wrap(x)
  {}

  /** Past a gate by what the move has left over. */
  lemma PastTheGate(old_: real, now: real, gate: nat)
    requires CrossesGate(old_, now, gate)
    ensures FromGate(now, gate) <= Delta(old_, now) - ToGate(old_, gate)
  {
    var (d, t) := (Delta(old_, now), TargetOf(gate));
    var k := DeltaIsCongruent(old_, now);
    WrapIsCongruent(t - old_);
    var j: int :| ToGate(old_, gate) == t - old_ + Turns(j);
    var left := d - ToGate(old_, gate);
    assert now - t == left + Turns(k + j) by { assert Turns(k + j) == Turns(k) + Turns(j); }
    CircleOfCongruent(left, now - t, k + j);
    hide Circle, Turns, Delta, TargetOf, ToGate;
  }

  /** What the gates counted so far have cost: after gate g, at least g - 1 sectors and
      the way from that gate. */
  predicate Paid(d: Driver) {
    d.travelled >= 0.0 && d.nextGate >= 1
    && (d.nextGate > 1 ==> d.travelled >= (d.nextGate - 2) as real * SECTOR + FromGate(d.phase, d.nextGate - 1))
  }

  lemma CrossingIsForward(old_: real, now: real, gate: nat)
    requires CrossesGate(old_, now, gate)
    ensures 0.0 < ToGate(old_, gate) <= Delta(old_, now)
  {
    hide Delta, ToGate;
  }

  lemma DrivePaid(d: Driver, move: Option<real>)
    requires Paid(d)
    ensures Paid(Drive(d, move))
  {
    hide FromGate, Delta, CrossesGate, ToGate;
    if move.Some? {
      var (now, g) := (move.value, d.nextGate);
      if CrossesGate(d.phase, now, g) {
        PastTheGate(d.phase, now, g);
        CrossingIsForward(d.phase, now, g);
        if g > 1 {
          GatesAreApart(d.phase, g - 1);
        }
      } else if g > 1 {
        MoveIsShort(d.phase, now, g - 1);
      }
    }
  }

  /** Over any drives from the grid, the counter rises by at most one a call, and to
      have it at k + 1 a kart has travelled at least k - 1 eighths of a turn. */
  lemma {:induction false} NoGateIsSkipped(start: Driver, moves: seq<Option<real>>)
    requires start.nextGate == 1 && start.travelled == 0.0
    ensures Paid(DriveAll(start, moves))
    ensures var end := DriveAll(start, moves);
            end.nextGate > 1 ==> end.travelled >= (end.nextGate - 2) as real * SECTOR
    ensures moves != [] ==>
      DriveAll(start, moves[..|moves| - 1]).nextGate <= DriveAll(start, moves).nextGate
        <= DriveAll(start, moves[..|moves| - 1]).nextGate + 1
  {
    hide FromGate, CrossesGate;
    if moves != [] {
      NoGateIsSkipped(start, moves[..|moves| - 1]);
      DrivePaid(DriveAll(start, moves[..|moves| - 1]), moves[|moves| - 1]);
    }
  }

  // ---- progress ----------------------------------------------------------------------------

  /** Laps and the fraction of the current one. */
  function Progress(phase: real, nextGate: nat): real {
    var p := Wrap(phase) / TAU;
    var expected := nextGate as real / GATES as real;
    p + Ceil(expected - p) as real - 1.0
  }

  /** Progress is the one number of laps that agrees with the position on the course and
      lies within a lap below the next gate. */
  lemma ProgressIsUnique(phase: real, nextGate: nat, v: real, k: int)
    ensures var expected := nextGate as real / 8.0; expected - 1.0 <= Progress(phase, nextGate) < expected
    ensures var expected := nextGate as real / 8.0;
            expected - 1.0 <= v < expected && v == Wrap(phase) / TAU + k as real ==> v == Progress(phase, nextGate)
  {
    var (p, expected) := (Wrap(phase) / TAU, nextGate as real / 8.0);
    CeilBounds(expected - p);
    var c := Ceil(expected - p) - 1;
    assert Progress(phase, nextGate) == p + c as real;
    if expected - 1.0 <= v < expected && v == p + k as real {
      assert -1.0 < (k - c) as real < 1.0;
    }
    hide Wrap, Ceil;
  }

  /** Progress before a move, from how far ahead the gate is. */
  lemma ProgressFromGate(phase: real, gate: nat)
    ensures var ahead := ToGate(phase, gate);
            Progress(phase, gate) == gate as real / 8.0 - (if ahead == 0.0 then 1.0 else ahead / TAU)
  {
    var ahead := ToGate(phase, gate);
    WrapIsCongruent(TargetOf(gate) - phase);
    var j: int :| ahead == TargetOf(gate) - phase + Turns(j);
    WrapIsCongruent(phase);
    var i: int :| Wrap(phase) == phase + Turns(i);
    assert gate == gate / GATES * GATES + gate % GATES;
    var lap := gate / GATES;
    assert TargetOf(gate) / TAU == (gate % GATES) as real / 8.0;
    assert gate as real / 8.0 == lap as real + TargetOf(gate) / TAU;
    if ahead == 0.0 {
      var v := gate as real / 8.0 - 1.0;
      var k := lap - 1 - i - j;
      assert v == Wrap(phase) / TAU + k as real;
      ProgressIsUnique(phase, gate, v, k);
    } else {
      var v := gate as real / 8.0 - ahead / TAU;
      var k := lap - j - i;
      assert v == Wrap(phase) / TAU + k as real;
      ProgressIsUnique(phase, gate, v, k);
    }
    hide Wrap, Progress, TargetOf, ToGate;
  }

  /** A move changes progress by exactly its share of a lap, unless it overshoots the
      gate it crosses by a whole sector, or backs out of the lap below the next gate. */
  lemma ProgressStep(d: Driver, now: real)
    ensures var (e, delta) := (Drive(d, Some(now)), Delta(d.phase, now));
      && e.phase == now && e.travelled == d.travelled + Abs(delta)
      && (Progress(now, e.nextGate) == Progress(d.phase, d.nextGate) + delta / TAU <==>
            if e.nextGate != d.nextGate then delta - ToGate(d.phase, d.nextGate) < SECTOR
            else delta > 0.0 || Progress(d.phase, d.nextGate) + delta / TAU >= d.nextGate as real / 8.0 - 1.0)
  {
    var (old_, gate) := (d.phase, d.nextGate);
    var (delta, ahead) := (Delta(old_, now), ToGate(old_, gate));
    var next := if CrossesGate(old_, now, gate) then gate + 1 else gate;
    ProgressFromGate(old_, gate);
    var v := Progress(old_, gate) + delta / TAU;
    var k := StepIsCongruent(old_, now, gate);
    ProgressIsUnique(now, next, v, k);
    ProgressIsUnique(old_, gate, v, k);
    hide Wrap, Progress, ToGate, Delta;
  }

  /** Not backwards, and no further than a sector beyond the gate. */
  predicate Onward(d: Driver, move: Option<real>) {
    move.Some? ==>
      var delta := Delta(d.phase, move.value);
      delta >= 0.0 && delta - ToGate(d.phase, d.nextGate) < SECTOR
  }

  lemma OnwardStep(d: Driver, move: Option<real>)
    requires Onward(d, move)
    ensures var e := Drive(d, move);
            Progress(e.phase, e.nextGate) - Progress(d.phase, d.nextGate) == (e.travelled - d.travelled) / TAU
  {
    if move.Some? {
      ProgressStep(d, move.value);
      ProgressIsUnique(d.phase, d.nextGate, Progress(d.phase, d.nextGate), 0);
    }
    hide Progress, ToGate, Delta, CrossesGate;
  }

  /** Over any onward drive progress is the way travelled, in laps, and the counter is ahead of
      it: no gate that was passed is left uncounted. */
  lemma {:induction false} EveryGateIsCounted(start: Driver, moves: seq<Option<real>>)
    requires forall i :: 0 <= i < |moves| ==> Onward(DriveAll(start, moves[..i]), moves[i])
    ensures var end := DriveAll(start, moves);
            var laps := Progress(start.phase, start.nextGate) + (end.travelled - start.travelled) / TAU;
            Progress(end.phase, end.nextGate) == laps && end.nextGate as real > 8.0 * laps
  {
    hide Progress, Drive, Onward;
    var end := DriveAll(start, moves);
    if moves != [] {
      var n := |moves| - 1;
      forall i | 0 <= i < n ensures Onward(DriveAll(start, moves[..n][..i]), moves[..n][i]) { assert moves[..n][..i] == moves[..i]; }
      EveryGateIsCounted(start, moves[..n]);
      OnwardStep(DriveAll(start, moves[..n]), moves[n]);
    }
    ProgressIsUnique(end.phase, end.nextGate, Progress(end.phase, end.nextGate), 0);
  }

  lemma StepIsCongruent(old_: real, now: real, gate: nat) returns (k: int)
    ensures Progress(old_, gate) + Delta(old_, now) / TAU == Wrap(now) / TAU + k as real
  {
    var a := DeltaIsCongruent(old_, now);
    WrapIsCongruent(now);
    var b: int :| Wrap(now) == now + Turns(b);
    WrapIsCongruent(old_);
    var c: int :| Wrap(old_) == old_ + Turns(c);
    var laps := Ceil(gate as real / 8.0 - Wrap(old_) / TAU) - 1;
    assert Progress(old_, gate) == Wrap(old_) / TAU + laps as real;
    k := c + laps - a - b;
    hide Wrap, Delta, Progress, Ceil;
  }

  // ---- a kart on a track ----------------------------------------------------------------------

  /** Between the guardrails. */
  ghost predicate OnRoad(track: Track, x: real, z: real)
    requires Valid(track)
  {
    var p := ProjectSpec(track, x, z);
    p.reach.Some? && p.reach.value <= Square(HALF_WIDTH - 1.0)
  }

  class Kart {
    var x: real
    var z: real
    var nextGate: nat
    ghost var travelled: real

    constructor (x: real, z: real)
      ensures this.x == x && this.z == z && nextGate == 1 && travelled == 0.0
    {
      this.x, this.z, nextGate, travelled := x, z, 1, 0.0;
    }

    ghost function View(track: Track): Driver
      requires Valid(track)
      reads this
    {
      Driver(ProjectSpec(track, x, z).phase, nextGate, travelled)
    }

    /** A step by (vx, vz): taken if it ends between the guardrails, with the gate
        looked for between the two projections. */
    method DriveBy(track: Track, vx: real, vz: real)
      requires Valid(track)
      modifies this
      ensures View(track) == Drive(old(View(track)),
        if OnRoad(track, old(x) + vx, old(z) + vz) then Some(ProjectSpec(track, old(x) + vx, old(z) + vz).phase) else None)
      ensures OnRoad(track, old(x), old(z)) ==> OnRoad(track, x, z)
    {
      hide Valid, ProjectSpec, Delta, TargetOf, ToGate;
      var projected := Project(track, x + vx, z + vz);
      if projected.reach.Some? && projected.reach.value <= Square(HALF_WIDTH - 1.0) {
        var previous := Project(track, x, z);
        x, z := x + vx, z + vz;
        travelled := travelled + Abs(Delta(previous.phase, projected.phase));
        if CrossesGate(previous.phase, projected.phase, nextGate) {
          nextGate := nextGate + 1;
        }
      }
    }
  }
}
