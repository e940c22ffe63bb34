/** The gates of a whole round: karts driven along the course by the rules of
    void-demo/src/kart.rs, scored by the round machine of void-demo/src/race.rs.

    A run of the round machine is taken together with where every kart of the round
    is; which karts cross a gate in a tick is no longer an input. */
module Circuits {
  import opened Options
  import opened TrackIndex
  import opened Arena
  import opened Pilots
  import opened Seats
  import opened Race
  import opened RaceSeats
  import opened RaceWorld
  import opened RaceLiveness
  import opened RaceScores
  import opened Counters
  import Gates

  /** How far past its last gate a rescued kart is set down. */
  const RESCUED: real := 0.015

  type Driver = Gates.Driver
  type Drivers = map<nat, Driver>

  predicate OnGrid(d: Driver) {
    d.nextGate == 1 && d.travelled == 0.0
  }

  /** The karts that `drive` moves in a tick. */
  predicate IsDriven(s: State, confirmed: set<nat>, k: nat) {
    var c := Barrier(s.crew, s.crew.order, confirmed);
    CountDown(s.race.(tick := s.race.tick + 1)).phase.Racing? && k in c.karts && c.karts[k].Racing()
  }

  /** What an event does to a kart on the course: a tick drives it, and it crosses a
      gate in the round exactly when it does so on the course; a rescue sets it down
      just past its last gate. */
  ghost predicate Moves(s: State, e: Event, k: nat, d: Driver, after: Driver) {
    match e
    case Tick(confirmed, crossing) =>
      if IsDriven(s, confirmed, k) then
        (k in crossing <==> after.nextGate != d.nextGate) && exists move :: after == Gates.Drive(d, move)
      else after == d
    case Rescue(p) =>
      if IsRescued(s, p, k) then
        && after == Gates.Driver(after.phase, d.nextGate, d.travelled)
        && (d.nextGate > 0 ==> Gates.FromGate(after.phase, d.nextGate - 1) <= RESCUED)
      else after == d
    case _ => after == d
  }

  /** Karts that come onto the course start on the grid. */
  ghost predicate Carries(s: State, e: Event, t: State, before: Drivers, after: Drivers) {
    forall k {:trigger OnCourse(s, k)} {:trigger OnCourse(t, k)} ::
      && (OnCourse(s, k) && k in before ==> k in after && Moves(s, e, k, before[k], after[k]))
      && (!OnCourse(s, k) && OnCourse(t, k) ==> k in after && OnGrid(after[k]))
  }

  ghost predicate Driven(terrain: Terrain, run: seq<State>, events: seq<Event>, drivers: seq<Drivers>) {
    && Run(terrain, run, events) && |drivers| == |run|
    && forall k :: 0 <= k < |events| ==> Carries(run[k], events[k], run[k + 1], drivers[k], drivers[k + 1])
  }

  // ---- what a gate costs --------------------------------------------------------------

  function Least(nextGate: nat): real {
    if nextGate < 2 then 0.0 else (nextGate - 2) as real * (Gates.SECTOR - RESCUED)
  }

  /** A rescue may bring a kart forward, but no further than it sets it down. */
  predicate Earned(d: Driver) {
    && d.nextGate >= 1 && d.travelled >= Least(d.nextGate)
    && (d.nextGate > 1 ==>
         d.travelled >= Least(d.nextGate) + Gates.FromGate(d.phase, d.nextGate - 1) - RESCUED)
  }

  lemma DriveEarned(d: Driver, move: Option<real>)
    requires Earned(d)
    ensures Earned(Gates.Drive(d, move))
  {
    hide Gates.FromGate, Gates.Delta, Gates.CrossesGate, Gates.ToGate;
    if move.Some? {
      var (now, g) := (move.value, d.nextGate);
      if Gates.CrossesGate(d.phase, now, g) {
        Gates.PastTheGate(d.phase, now, g);
        Gates.CrossingIsForward(d.phase, now, g);
        if g > 1 {
          Gates.GatesAreApart(d.phase, g - 1);
          assert Least(g + 1) == Least(g) + Gates.SECTOR - RESCUED;
        }
      } else if g > 1 {
        Gates.MoveIsShort(d.phase, now, g - 1);
      }
    }
  }

  lemma MoveEarned(s: State, e: Event, k: nat, d: Driver, after: Driver)
    requires Earned(d) && Moves(s, e, k, d, after)
    ensures Earned(after)
  {
    hide Gates.FromGate, Gates.Drive, IsDriven, IsRescued;
    if e.Tick? && IsDriven(s, e.confirmed, k) {
      var move :| after == Gates.Drive(d, move);
      DriveEarned(d, move);
    }
  }

  /** Where each kart of the round is agrees with what the round knows of it. */
  ghost predicate Tracks(c: Crew, k: nat, drivers: Drivers) {
    k in c.karts && k in drivers && drivers[k].nextGate == c.karts[k].nextGate && Earned(drivers[k])
  }

  /** During a round the gates counted in a tick are the gates crossed on the course. */
  lemma DrivingTracks(terrain: Terrain, s: State, confirmed: set<nat>, crossing: set<nat>, k: nat, before: Drivers, after: Drivers)
    requires Valid(s.world.track) && GridOk(s.crew) && Started(s.race.phase)
    requires Rolling(s.crew, k) ==> Tracks(s.crew, k, before)
    requires OnCourse(s, k) && k in before ==> k in after && Moves(s, Tick(confirmed, crossing), k, before[k], after[k])
    requires Rolling(Driving(terrain, s, confirmed, crossing).crew, k)
    ensures var c := Driving(terrain, s, confirmed, crossing).crew;
            Rolling(s.crew, k) && Tracks(c, k, after) && c.karts[k].pilot == s.crew.karts[k].pilot
  {
    var ticked := Ticked(s, confirmed);
    BarrierGrid(s.crew, s.crew.order, confirmed);
    BarrierRolled(s.crew, s.crew.order, confirmed);
    ConstructPlaces(terrain, ticked, k);
    assert Rolling(ticked.crew, k);
    assert Rolling(s.crew, k) && SameCounter(s.crew.karts[k], ticked.crew.karts[k]);
    MoveEarned(s, Tick(confirmed, crossing), k, before[k], after[k]);
    hide Valid, Barrier, Earned, Construct, Gates.CrossesGate, Gates.Delta, GridOk, Rolled;
  }

  /** When construction ends in a tick, everything stands on the grid at the end of it. */
  lemma GridTracks(terrain: Terrain, s: State, confirmed: set<nat>, crossing: set<nat>, k: nat, after: Drivers)
    requires Valid(s.world.track) && GridOk(s.crew) && !Started(s.race.phase)
    requires OnCourse(TickRound(terrain, s, confirmed, crossing), k)
    requires k in after && OnGrid(after[k])
    ensures Tracks(TickRound(terrain, s, confirmed, crossing).crew, k, after)
  {
    var ticked := Ticked(s, confirmed);
    BarrierGrid(s.crew, s.crew.order, confirmed);
    ConstructPlaces(terrain, ticked, k);
    ConstructTrack(terrain, ticked);
    TickIsJudged(terrain, s, confirmed, crossing);
    hide Valid, Barrier, Construct, TallyKarts, EveryoneToLobby, GridOk, TickRound;
  }

  lemma TickTracks(terrain: Terrain, s: State, confirmed: set<nat>, crossing: set<nat>, k: nat, before: Drivers, after: Drivers)
    requires Valid(s.world.track) && GridOk(s.crew)
    requires OnCourse(s, k) ==> Tracks(s.crew, k, before)
    requires Carries(s, Tick(confirmed, crossing), TickRound(terrain, s, confirmed, crossing), before, after)
    ensures var t := TickRound(terrain, s, confirmed, crossing); OnCourse(t, k) ==> Tracks(t.crew, k, after)
  {
    var t := TickRound(terrain, s, confirmed, crossing);
    hide Valid, GridOk, TickRound, Driving, Judge, Moves, Earned, Rolling;
    if OnCourse(t, k) {
      if Started(s.race.phase) {
        TickIsJudged(terrain, s, confirmed, crossing);
        JudgeCounters(Driving(terrain, s, confirmed, crossing), k);
        DrivingTracks(terrain, s, confirmed, crossing, k, before, after);
        StillThere(t.crew, k);
      } else {
        GridTracks(terrain, s, confirmed, crossing, k, after);
      }
    }
  }

  lemma StepTracks(terrain: Terrain, s: State, e: Event, k: nat, before: Drivers, after: Drivers)
    requires Valid(s.world.track) && ValidEvent(s.crew, e) && GridOk(s.crew)
    requires OnCourse(s, k) ==> Tracks(s.crew, k, before)
    requires Carries(s, e, Step(terrain, s, e), before, after)
    ensures var t := Step(terrain, s, e); OnCourse(t, k) ==> Tracks(t.crew, k, after)
  {
    hide Valid, GridOk, TickRound, LaunchRound, ChunkList, Earned, Apply, AfterEvent, BecomeReady, JoinGrid, LeaveRace, RescueKart,
         CancelTeleport, Pilots.Connect, Pilots.Disconnect;
    if e.Tick? {
      hide Carries;
      TickTracks(terrain, s, e.confirmed, e.crossing, k, before, after);
    } else if e.Launch? {
      LaunchOrNot(terrain, s, e);
    } else {
      CrewEventStep(terrain, s, e);
      var t := Step(terrain, s, e);
      if OnCourse(t, k) {
        if e.Rescue? {
          RescueIs(s, e.p);
          RescueRolled(s, e.p, k);
        } else {
          EventRolled(s.race, s.crew, e);
        }
        assert Rolling(s.crew, k) && OnCourse(s, k);
        MoveEarned(s, e, k, before[k], after[k]);
      }
    }
  }

  /** In every state of a driven run, each kart of the round has the counter the course
      gives it, and has travelled what that counter takes. */
  lemma {:induction false} TracksAlways(terrain: Terrain, run: seq<State>, events: seq<Event>, drivers: seq<Drivers>, i: nat, k: nat)
    requires Driven(terrain, run, events, drivers) && i < |run|
    ensures OnCourse(run[i], k) ==> Tracks(run[i].crew, k, drivers[i])
  {
    hide Tracks, Timed, WorldOk, OnCourse, Carries, Step, Valid, GridOk;
    if i == 0 {
      NobodyYet(run[0], k);
    } else {
      TracksAlways(terrain, run, events, drivers, i - 1, k);
      GridAlways(terrain, run, events, i - 1);
      assert StepTo(terrain, run[i - 1], events[i - 1], run[i]);
      assert Carries(run[i - 1], events[i - 1], run[i], drivers[i - 1], drivers[i]);
      StepTracks(terrain, run[i - 1], events[i - 1], k, drivers[i - 1], drivers[i]);
    }
  }

  lemma NobodyYet(s: State, k: nat)
    requires Initial(s)
    ensures !OnCourse(s, k)
  {}

  // ---- results -----------------------------------------------------------------------------

  /** What it takes to finish: all gates of all laps but the way to the first one. */
  function Distance(laps: nat): real {
    Least(laps * GATES + 1)
  }

  ghost predicate WentRound(s: State, laps: nat, drivers: Drivers, x: Score) {
    exists k {:trigger drivers[k]} :: Rolling(s.crew, k) && s.crew.karts[k].pilot == x.pilot && k in drivers && drivers[k].travelled >= Distance(laps)
  }

  lemma MoreGatesCostMore(a: nat, b: nat)
    requires a <= b
    ensures Least(a) <= Least(b)
  {}

  lemma TickResults(terrain: Terrain, s: State, confirmed: set<nat>, crossing: set<nat>, before: Drivers, after: Drivers, x: Score)
    requires Valid(s.world.track) && GridOk(s.crew) && Sorted(s.race.results)
    requires forall k {:trigger OnCourse(s, k)} :: OnCourse(s, k) ==> Tracks(s.crew, k, before)
    requires Carries(s, Tick(confirmed, crossing), TickRound(terrain, s, confirmed, crossing), before, after)
    requires x in TickRound(terrain, s, confirmed, crossing).race.results && x !in s.race.results
    ensures WentRound(s, s.race.laps, after, x)
  {
    hide Valid, GridOk, Driving, Judge, TickRound, Moves, Sorted, Least, Rolling;
    var v := Driving(terrain, s, confirmed, crossing);
    TickIsJudged(terrain, s, confirmed, crossing);
    DrivingKeepsResults(terrain, s, confirmed, crossing);
    var k := NewScores(v, x);
    FinishersRoll(v.race, v.crew, k);
    assert OnCourse(s, k) <==> Rolling(s.crew, k);
    DrivingTracks(terrain, s, confirmed, crossing, k, before, after);
    MoreGatesCostMore(s.race.laps * GATES + 1, after[k].nextGate);
  }

  /** Over every run, whatever is steered, rescued, joined or left: a new score belongs
      to a pilot whose kart has gone round the course as often as the round has laps,
      but for the way to the first gate and 0.015 a gate. */
  lemma ResultsAreDriven(terrain: Terrain, run: seq<State>, events: seq<Event>, drivers: seq<Drivers>, i: nat, x: Score)
    requires Driven(terrain, run, events, drivers) && i < |events|
    requires x in run[i + 1].race.results && x !in run[i].race.results
    ensures WentRound(run[i], run[i].race.laps, drivers[i + 1], x)
    ensures run[i].race.laps > 0 ==> Distance(run[i].race.laps) == (run[i].race.laps * GATES - 1) as real * (Gates.SECTOR - RESCUED)
  {
    hide Tracks, Timed, WorldOk, OnCourse, Carries, Step, Valid, GridOk, WentRound, Sorted, LapsOk;
    GridAlways(terrain, run, events, i);
    ScoresAlways(terrain, run, events, i);
    assert StepTo(terrain, run[i], events[i], run[i + 1]);
    assert Carries(run[i], events[i], run[i + 1], drivers[i], drivers[i + 1]);
    forall k ensures OnCourse(run[i], k) ==> Tracks(run[i].crew, k, drivers[i]) {
      TracksAlways(terrain, run, events, drivers, i, k);
    }
    if !events[i].Tick? {
      OtherResults(terrain, run[i], events[i]);
    } else {
      TickStep(terrain, run[i], events[i]);
      TickResults(terrain, run[i], events[i].confirmed, events[i].crossing, drivers[i], drivers[i + 1], x);
    }
  }

  /** However the karts are steered, there is one way to carry a tick out. */
  lemma AnySteering(terrain: Terrain, s: State, confirmed: set<nat>, moves: nat -> Option<real>, grid: nat -> real, before: Drivers)
    returns (crossing: set<nat>, after: Drivers)
    requires Valid(s.world.track)
    ensures Carries(s, Tick(confirmed, crossing), TickRound(terrain, s, confirmed, crossing), before, after)
    ensures forall k {:trigger OnCourse(s, k)} :: OnCourse(s, k) && k in before && IsDriven(s, confirmed, k) ==>
              k in after && after[k] == Gates.Drive(before[k], moves(k))
  {
    hide Valid, TickRound, IsDriven, Gates.CrossesGate, Gates.Delta, Rolling;
    crossing := set k | k in before && Gates.Drive(before[k], moves(k)).nextGate != before[k].nextGate;
    var t := TickRound(terrain, s, confirmed, crossing);
    after := map k | k in before.Keys + t.crew.karts.Keys ::
      if !OnCourse(s, k) || k !in before then Gates.Driver(grid(k), 1, 0.0)
      else if IsDriven(s, confirmed, k) then Gates.Drive(before[k], moves(k))
      else before[k];
    forall k ensures OnCourse(t, k) ==> k in after { StillThere(t.crew, k); }
  }
}
