/** Times of results and laps, told from the run alone: the ticks at which karts pass their
    gates, and the rescues their pilots asked for. */
module Times {
  import opened Options
  import opened TrackIndex
  import opened Arena
  import opened Pilots
  import opened Seats
  import opened Race
  import opened RaceSeats
  import opened RaceWorld
  import opened RaceLiveness
  import opened RaceScores
  import opened Counters

  // ---- one kart over one pass of the scoring loop ---------------------------------------

  /** The loop comes to a kart once: with its racer past the gate, and with a time if that
      was the last one. */
  lemma {:induction false} TallyAt(race: Round, c: Crew, n: nat, k: nat)
    requires KartsOk(c) && Counted(c, k)
    ensures var (d, kart) := (TallyKarts(race, c, n).crew, c.karts[k]);
      && k in d.karts && kart.pilot in d.players && d.players[kart.pilot].racer.Some?
      && if n <= k then d.karts[k] == kart && d.players[kart.pilot].racer == c.players[kart.pilot].racer
         else
           && d.karts[k] == kart.(finished := if kart.nextGate > race.laps * GATES then Some(race.Elapsed() + kart.penalty) else None)
           && d.players[kart.pilot].racer == Some(PassGate(race, c.players[kart.pilot].racer.value, kart.nextGate))
  {
    hide PassGate, SortScores, KartsOk;
    if n > 0 {
      TallyAt(race, c, n - 1, k);
      TallyPilots(race, c, n - 1, n - 1, k);
      TallyUnfolds(race, c, n);
      hide TallyKarts, TallyKart;
      TallyKartAt(race, TallyKarts(race, c, n - 1), n - 1, k);
    }
  }

  /** The scoring loop mixes up no pilots. */
  lemma TallyPilots(race: Round, c: Crew, n: nat, j: nat, k: nat)
    requires KartsOk(c) && Rolling(c, k)
    ensures var d := TallyKarts(race, c, n).crew;
            && Rolling(d, k) && d.karts[k].pilot == c.karts[k].pilot
            && (Counted(d, j) && j != k ==> d.karts[j].pilot != d.karts[k].pilot)
  {
    TallyScored(race, c, n);
    hide TallyKarts;
  }

  lemma TallyKartAt(race: Round, t: Tally, j: nat, k: nat)
    requires Rolling(t.crew, k)
    requires Counted(t.crew, j) && j != k ==> t.crew.karts[j].pilot != t.crew.karts[k].pilot
    ensures var (c, d, kart) := (t.crew, TallyKart(race, t, j).crew, t.crew.karts[k]);
      && Rolling(d, k)
      && if j == k && Counted(c, k) then
           && d.karts[k] == kart.(finished := if kart.nextGate > race.laps * GATES then Some(race.Elapsed() + kart.penalty) else None)
           && d.players[kart.pilot].racer == Some(PassGate(race, c.players[kart.pilot].racer.value, kart.nextGate))
         else d.karts[k] == kart && d.players[kart.pilot].racer == c.players[kart.pilot].racer
  {
    hide PassGate, SortScores;
  }

  /** A kart that is not counted is passed over. */
  lemma {:induction false} TallyPasses(race: Round, c: Crew, n: nat, k: nat)
    requires KartsOk(c) && Rolling(c, k) && c.karts[k].finished.Some?
    ensures var d := TallyKarts(race, c, n).crew; Rolling(d, k) && SameStand(c, d, k)
  {
    hide PassGate, SortScores;
    if n > 0 {
      TallyPasses(race, c, n - 1, k);
      TallyScored(race, c, n - 1);
      var t := TallyKarts(race, c, n - 1);
      TallyUnfolds(race, c, n);
      hide TallyKarts;
      if n - 1 != k && Counted(t.crew, n - 1) {
        assert t.crew.karts[n - 1].pilot == c.karts[n - 1].pilot != c.karts[k].pilot;
      }
    }
  }

  // ---- one kart over one tick -----------------------------------------------------------

  /** The karts still racing are driven and scored in this tick. */
  predicate Raced(s: State) {
    s.race.phase.Racing? || (s.race.phase.Countdown? && s.race.start <= s.race.tick + 1)
  }

  /** A gate passed: with a lap, if it is the one at the start. */
  predicate Passes(q: Racer, r: Racer, nextGate: nat, tick: nat, start: nat) {
    && r.kart == q.kart && r.gate == nextGate
    && if nextGate != q.gate && (nextGate - 1) % GATES == 0 then
         var time := tick - (if q.lapStart > start then q.lapStart else start);
         && r.lapStart == tick && r.bestLap.Some?
         && r.bestLap.value <= time && (q.bestLap.Some? ==> r.bestLap.value <= q.bestLap.value)
         && (r.bestLap.value == time || r.bestLap == q.bestLap)
       else r.lapStart == q.lapStart && r.bestLap == q.bestLap
  }

  ghost predicate Advanced(s: State, t: State, k: nat)
    requires Rolling(s.crew, k) && Rolling(t.crew, k)
  {
    var (a, b, q, r) := (s.crew.karts[k], t.crew.karts[k], RacerOf(s.crew, k), RacerOf(t.crew, k));
    && t.race.tick == s.race.tick + 1 && t.race.laps == s.race.laps
    && (Raced(s) ==> t.race.start == s.race.start && (t.race.phase.Racing? || t.race.phase.Destroying?))
    && b.pilot == a.pilot && b.penalty == a.penalty && q.Some? && r.Some?
    && if Raced(s) && a.finished.None? then
         && s.race.start <= t.race.tick
         && a.nextGate <= b.nextGate <= a.nextGate + 1
         && b.finished == (if b.nextGate > s.race.laps * GATES then Some(t.race.tick - s.race.start + a.penalty) else None)
         && Passes(q.value, r.value, b.nextGate, t.race.tick, s.race.start)
       else b.nextGate == a.nextGate && b.finished == a.finished && r == q
  }

  lemma PassGatePasses(race: Round, racer: Racer, nextGate: gate)
    ensures Passes(racer, PassGate(race, racer, nextGate), nextGate, race.tick, race.start)
  {}

  lemma DriveMoves(race: Round, c: Crew, crossing: set<nat>, k: nat)
    requires Rolling(Drive(race, c, crossing), k)
    ensures var d := Drive(race, c, crossing);
      && Rolling(c, k) && RacerOf(d, k) == RacerOf(c, k)
      && d.karts[k] == c.karts[k].(nextGate := d.karts[k].nextGate)
      && c.karts[k].nextGate <= d.karts[k].nextGate <= c.karts[k].nextGate + 1
      && (d.karts[k].nextGate != c.karts[k].nextGate ==> race.phase.Racing? && c.karts[k].finished.None?)
  {}

  /** Scoring a kart on the road, whether the round goes on or ends with it. */
  lemma JudgeStand(s: State, k: nat)
    requires Valid(s.world.track) && GridOk(s.crew) && Rolling(Judge(s).crew, k) && s.race.phase.Racing?
    ensures Rolling(s.crew, k) && RacerOf(s.crew, k).Some? && RacerOf(Judge(s).crew, k).Some?
    ensures var (kart, t) := (s.crew.karts[k], Judge(s));
      if kart.finished.None? then
        && t.crew.karts[k].finished == (if kart.nextGate > s.race.laps * GATES then Some(s.race.Elapsed() + kart.penalty) else None)
        && Passes(RacerOf(s.crew, k).value, RacerOf(t.crew, k).value, kart.nextGate, s.race.tick, s.race.start)
      else t.crew.karts[k].finished == kart.finished && RacerOf(t.crew, k) == RacerOf(s.crew, k)
  {
    JudgeCounters(s, k);
    assert RacerOk(s.crew, s.crew.karts[k].pilot);
    var t := TallyKarts(s.race, s.crew, s.crew.nextKart);
    EveryoneRolled(t.crew, t.crew.order);
    hide Valid, ChunkList, TallyKarts, EveryoneToLobby, TablesOk, PassGate;
    if s.crew.karts[k].finished.None? {
      TallyAt(s.race, s.crew, s.crew.nextKart, k);
      PassGatePasses(s.race, RacerOf(s.crew, k).value, s.crew.karts[k].nextGate);
    } else {
      TallyPasses(s.race, s.crew, s.crew.nextKart, k);
    }
  }

  lemma UnderWay(terrain: Terrain, s: State, confirmed: set<nat>, crossing: set<nat>)
    requires Valid(s.world.track) && GridOk(s.crew) && Started(s.race.phase)
    ensures var (v, ticked) := (Driving(terrain, s, confirmed, crossing), Ticked(s, confirmed));
      && v.crew == Drive(v.race, ticked.crew, crossing) && GridOk(v.crew)
      && v.race.tick == s.race.tick + 1 && v.race.laps == s.race.laps
      && (v.race.phase.Racing? <==> Raced(s)) && (v.race.phase.Racing? ==> v.race.start == s.race.start)
  {
    var ticked := Ticked(s, confirmed);
    BarrierGrid(s.crew, s.crew.order, confirmed);
    ConstructPlaces(terrain, ticked, 0);
    DriveScored(CountDown(Load(ticked).race), ticked.crew, crossing);
    ScoredGrid(ticked.crew, Drive(CountDown(Load(ticked).race), ticked.crew, crossing));
    hide Valid, Barrier, Construct, Drive, GridOk, Scored, Transferring;
  }

  lemma JudgeClock(s: State)
    requires Valid(s.world.track)
    ensures Judge(s).race.tick == s.race.tick && Judge(s).race.start == s.race.start && Judge(s).race.laps == s.race.laps
    ensures if s.race.phase.Racing? then Judge(s).race.phase.Racing? || Judge(s).race.phase.Destroying? else Judge(s) == s
  {
    hide Valid, TallyKarts, EveryoneToLobby, ChunkList;
  }

  /** A kart before and after the drive of a tick. */
  lemma DrivenStand(terrain: Terrain, s: State, confirmed: set<nat>, crossing: set<nat>, k: nat)
    requires Valid(s.world.track) && GridOk(s.crew) && Started(s.race.phase)
    requires Rolling(Driving(terrain, s, confirmed, crossing).crew, k)
    ensures Rolling(s.crew, k) && RacerOf(s.crew, k).Some?
    ensures var v := Driving(terrain, s, confirmed, crossing);
      && RacerOf(v.crew, k) == RacerOf(s.crew, k)
      && var (a, b) := (s.crew.karts[k], v.crew.karts[k]);
      && b.pilot == a.pilot && b.finished == a.finished && b.penalty == a.penalty
      && a.nextGate <= b.nextGate <= a.nextGate + 1
      && (b.nextGate != a.nextGate ==> v.race.phase.Racing? && a.finished.None?)
  {
    var (v, ticked) := (Driving(terrain, s, confirmed, crossing), Ticked(s, confirmed));
    UnderWay(terrain, s, confirmed, crossing);
    hide Driving;
    BarrierRolled(s.crew, s.crew.order, confirmed);
    DriveMoves(v.race, ticked.crew, crossing, k);
    assert Rolling(s.crew, k) && SameStand(s.crew, ticked.crew, k);
    assert RacerOk(s.crew, s.crew.karts[k].pilot);
    hide Valid, Barrier, Drive, GridOk;
  }

  lemma TickStand(terrain: Terrain, s: State, confirmed: set<nat>, crossing: set<nat>, k: nat)
    requires Valid(s.world.track) && GridOk(s.crew) && Started(s.race.phase) && (Raced(s) ==> s.race.start <= s.race.tick + 1)
    requires Rolling(TickRound(terrain, s, confirmed, crossing).crew, k)
    ensures Rolling(s.crew, k) && Advanced(s, TickRound(terrain, s, confirmed, crossing), k)
  {
    var v := Driving(terrain, s, confirmed, crossing);
    TickIsJudged(terrain, s, confirmed, crossing);
    UnderWay(terrain, s, confirmed, crossing);
    JudgeClock(v);
    hide TickRound, Driving, Drive, Barrier, Passes, Advanced;
    if v.race.phase.Racing? { JudgeStand(v, k); }
    hide Judge, Valid;
    JudgeCounters(v, k);
    DrivenStand(terrain, s, confirmed, crossing, k);
    hide *;
    Combined(s, v, TickRound(terrain, s, confirmed, crossing), k);
  }

  /** The drive and the scoring of a tick, one after the other. */
  lemma Combined(s: State, v: State, t: State, k: nat)
    requires Rolling(s.crew, k) && Rolling(v.crew, k) && Rolling(t.crew, k)
    requires RacerOf(s.crew, k).Some? && RacerOf(v.crew, k) == RacerOf(s.crew, k)
    requires var (a, b) := (s.crew.karts[k], v.crew.karts[k]);
      && b.pilot == a.pilot && b.finished == a.finished && b.penalty == a.penalty && a.nextGate <= b.nextGate <= a.nextGate + 1
      && (b.nextGate != a.nextGate ==> v.race.phase.Racing? && a.finished.None?)
    requires v.race.tick == s.race.tick + 1 && v.race.laps == s.race.laps
    requires (v.race.phase.Racing? <==> Raced(s)) && (v.race.phase.Racing? ==> v.race.start == s.race.start <= v.race.tick)
    requires t.race.tick == v.race.tick && t.race.start == v.race.start && t.race.laps == v.race.laps
    requires if v.race.phase.Racing? then t.race.phase.Racing? || t.race.phase.Destroying? else t == v
    requires var (a, b) := (v.crew.karts[k], t.crew.karts[k]); SameCounter(a, b.(finished := a.finished))
    requires v.race.phase.Racing? ==>
      var (a, b, q, r) := (v.crew.karts[k], t.crew.karts[k], RacerOf(v.crew, k), RacerOf(t.crew, k));
      if a.finished.None? then
        && q.Some? && r.Some?
        && b.finished == (if a.nextGate > v.race.laps * GATES then Some(v.race.Elapsed() + a.penalty) else None)
        && Passes(q.value, r.value, a.nextGate, v.race.tick, v.race.start)
      else b.finished == a.finished && r == q
    ensures Advanced(s, t, k)
  {
    hide Passes, Rolling;
    StillThere(s.crew, k);
  }

  // ---- one kart over one event ----------------------------------------------------------

  /** A rescue of the kart's pilot while the kart races. */
  predicate IsFine(s: State, e: Event, k: nat) {
    e.Rescue? && IsRescued(s, e.p, k)
  }

  /** What any event does to a kart that is on the course and still in the round after it. */
  ghost predicate Goes(s: State, e: Event, t: State, k: nat)
    requires Rolling(s.crew, k) && Rolling(t.crew, k)
  {
    if e.Tick? then Advanced(s, t, k)
    else
      var (a, b) := (s.crew.karts[k], t.crew.karts[k]);
      && t.race == s.race && RacerOf(t.crew, k) == RacerOf(s.crew, k) && b.pilot == a.pilot
      && b.nextGate == a.nextGate && b.finished == a.finished
      && b.penalty == a.penalty + (if IsFine(s, e, k) then RESET_PENALTY else 0)
  }

  lemma StepGoes(terrain: Terrain, s: State, e: Event, k: nat)
    requires Valid(s.world.track) && ValidEvent(s.crew, e) && Timed(s.race, s.crew, false) && Started(s.race.phase)
    requires Rolling(Step(terrain, s, e).crew, k)
    ensures Rolling(s.crew, k) && Goes(s, e, Step(terrain, s, e), k)
  {
    hide Valid, GridOk, OnTime, TickRound, LaunchRound, ChunkList, Apply, AfterEvent, BecomeReady, JoinGrid, LeaveRace, RescueKart,
         CancelTeleport, Pilots.Connect, Pilots.Disconnect, Advanced, IsRescued;
    if e.Tick? {
      TickStep(terrain, s, e);
      TickStand(terrain, s, e.confirmed, e.crossing, k);
    } else if e.Launch? {
      NoLaunch(terrain, s, e);
    } else {
      CrewEventStep(terrain, s, e);
      if e.Rescue? {
        RescueIs(s, e.p);
        RescueRolled(s, e.p, k);
      } else {
        EventRolled(s.race, s.crew, e);
      }
    }
  }

  lemma NoLaunch(terrain: Terrain, s: State, e: Event)
    requires Valid(s.world.track) && ValidEvent(s.crew, e) && e.Launch? && Started(s.race.phase)
    ensures Step(terrain, s, e) == s
  {
    hide Valid, Enlist, EveryoneToLobby, ChunkList;
  }

  /** A kart comes onto the course at the start, when construction ends. */
  lemma StepStarts(terrain: Terrain, s: State, e: Event, k: nat)
    requires Valid(s.world.track) && ValidEvent(s.crew, e) && Timed(s.race, s.crew, false)
    requires !OnCourse(s, k) && OnCourse(Step(terrain, s, e), k)
    ensures AtStart(Step(terrain, s, e).crew, k) && !Step(terrain, s, e).race.phase.Racing?
  {
    hide Valid, GridOk, OnTime, TickRound, LaunchRound, ChunkList, Apply, AfterEvent, BecomeReady, JoinGrid, LeaveRace, RescueKart,
         CancelTeleport, Pilots.Connect, Pilots.Disconnect, Rolling;
    if Started(s.race.phase) {
      StepGoes(terrain, s, e, k);
    } else if e.Tick? {
      TickStep(terrain, s, e);
      TickStarts(terrain, s, e.confirmed, e.crossing, k);
    } else if e.Launch? {
      LaunchOrNot(terrain, s, e);
    } else {
      CrewEventStep(terrain, s, e);
    }
  }

  lemma TickStarts(terrain: Terrain, s: State, confirmed: set<nat>, crossing: set<nat>, k: nat)
    requires Valid(s.world.track) && GridOk(s.crew) && !Started(s.race.phase)
    requires OnCourse(TickRound(terrain, s, confirmed, crossing), k)
    ensures var t := TickRound(terrain, s, confirmed, crossing); AtStart(t.crew, k) && !t.race.phase.Racing?
  {
    var ticked := Ticked(s, confirmed);
    BarrierGrid(s.crew, s.crew.order, confirmed);
    ConstructPlaces(terrain, ticked, k);
    ConstructTrack(terrain, ticked);
    TickIsJudged(terrain, s, confirmed, crossing);
    hide Valid, Barrier, Construct, TallyKarts, EveryoneToLobby, GridOk, TickRound;
  }

  // ---- penalties ------------------------------------------------------------------------

  /** The rescues of a kart since it came onto the course. */
  ghost function Fines(run: seq<State>, events: seq<Event>, i: nat, k: nat): nat
    requires |run| == |events| + 1 && i < |run|
  {
    if i == 0 || !OnCourse(run[i - 1], k) then 0
    else Fines(run, events, i - 1, k) + if IsFine(run[i - 1], events[i - 1], k) then 1 else 0
  }

  lemma StateAt(terrain: Terrain, run: seq<State>, events: seq<Event>, i: nat)
    requires Run(terrain, run, events) && i < |run|
    ensures Timed(run[i].race, run[i].crew, false)
    ensures i > 0 ==> StepTo(terrain, run[i - 1], events[i - 1], run[i]) && Timed(run[i - 1].race, run[i - 1].crew, false)
  {
    hide Timed, WorldOk;
    TimedAlways(terrain, run, events, i);
    if i > 0 { TimedAlways(terrain, run, events, i - 1); }
  }

  /** Over every run: the penalty of a kart in the round is RESET_PENALTY for each rescue its
      pilot asked for since it came onto the course. */
  lemma {:induction false} PenaltyAlways(terrain: Terrain, run: seq<State>, events: seq<Event>, i: nat, k: nat)
    requires Run(terrain, run, events) && i < |run| && OnCourse(run[i], k)
    ensures run[i].crew.karts[k].penalty == RESET_PENALTY * Fines(run, events, i, k)
  {
    hide Step, Timed, Valid, Advanced, IsFine;
    StateAt(terrain, run, events, i);
    NobodyOnCourse(run[0], k);
    if i > 0 {
      var (s, e) := (run[i - 1], events[i - 1]);
      if OnCourse(s, k) {
        PenaltyAlways(terrain, run, events, i - 1, k);
        StepGoes(terrain, s, e, k);
        PenaltyStep(s, e, run[i], k);
      } else {
        StepStarts(terrain, s, e, k);
      }
    }
  }

  lemma NobodyOnCourse(s: State, k: nat)
    requires Initial(s)
    ensures !OnCourse(s, k)
  {}

  lemma PenaltyStep(s: State, e: Event, t: State, k: nat)
    requires Rolling(s.crew, k) && Rolling(t.crew, k) && Goes(s, e, t, k)
    ensures t.crew.karts[k].penalty == s.crew.karts[k].penalty + if IsFine(s, e, k) then RESET_PENALTY else 0
  {}

  // ---- results --------------------------------------------------------------------------

  lemma SentStillRolls(c: Crew, p: nat, k: nat)
    requires Rolling(c, k)
    ensures Rolling(SendToLobby(c, p), k)
  {
    hide SeatOf, Without;
  }

  lemma {:induction false} EveryoneStillRolls(c: Crew, players: seq<nat>, k: nat)
    requires Rolling(c, k)
    ensures Rolling(EveryoneToLobby(c, players), k)
  {
    hide Rolling, SendToLobby;
    if players != [] {
      EveryoneStillRolls(c, players[..|players| - 1], k);
      SentStillRolls(EveryoneToLobby(c, players[..|players| - 1]), players[|players| - 1], k);
    }
  }

  lemma JudgedStillRolls(s: State, k: nat)
    requires Valid(s.world.track) && Rolling(s.crew, k)
    ensures Rolling(Judge(s).crew, k)
  {
    var t := TallyKarts(s.race, s.crew, s.crew.nextKart);
    TallyScored(s.race, s.crew, s.crew.nextKart);
    assert Rolling(t.crew, k);
    EveryoneStillRolls(t.crew, t.crew.order, k);
    hide Valid, ChunkList, TallyKarts, EveryoneToLobby, Scored, Rolling;
  }

  /** The time of a result: the ticks from the start to the tick in which the kart passed
      its last gate, and the penalty of each rescue on the way; the kart carries the same. */
  ghost predicate TimedResult(run: seq<State>, events: seq<Event>, i: nat, k: nat, x: Score)
    requires |run| == |events| + 1 && i < |events|
  {
    var (s, t) := (run[i], run[i + 1]);
    && OnCourse(s, k) && Rolling(t.crew, k)
    && s.crew.karts[k].pilot == t.crew.karts[k].pilot == x.pilot
    && s.crew.karts[k].finished.None? && t.crew.karts[k].finished == Some(x.time)
    && t.crew.karts[k].nextGate > s.race.laps * GATES
    && s.race.start <= t.race.tick && t.race.tick == s.race.tick + 1
    && x.time == t.race.tick - s.race.start + RESET_PENALTY * Fines(run, events, i, k)
  }

  /** A kart that finishes in a tick, as the scoring loop sees it. */
  lemma FinishingTick(terrain: Terrain, s: State, e: Event, x: Score) returns (k: nat)
    requires Valid(s.world.track) && ValidEvent(s.crew, e) && Timed(s.race, s.crew, false) && Sorted(s.race.results)
    requires x in Step(terrain, s, e).race.results && x !in s.race.results
    ensures e.Tick? && Started(s.race.phase) && Raced(s) && Rolling(s.crew, k) && Rolling(Step(terrain, s, e).crew, k)
    ensures s.crew.karts[k].pilot == x.pilot && s.crew.karts[k].finished.None?
    ensures Step(terrain, s, e).crew.karts[k].nextGate > s.race.laps * GATES
    ensures s.race.start <= s.race.tick + 1 && x.time == s.race.tick + 1 - s.race.start + s.crew.karts[k].penalty
  {
    hide Valid, GridOk, OnTime, Driving, Judge, TickRound, Sorted, Advanced;
    if !e.Tick? { OtherResults(terrain, s, e); }
    TickStep(terrain, s, e);
    hide Step;
    var v := Driving(terrain, s, e.confirmed, e.crossing);
    TickIsJudged(terrain, s, e.confirmed, e.crossing);
    DrivingKeepsResults(terrain, s, e.confirmed, e.crossing);
    k := NewScores(v, x);
    UnderWay(terrain, s, e.confirmed, e.crossing);
    FinishersRoll(v.race, v.crew, k);
    JudgedStillRolls(v, k);
    JudgeCounters(v, k);
    TickStand(terrain, s, e.confirmed, e.crossing, k);
    DrivenStand(terrain, s, e.confirmed, e.crossing, k);
    assert v.crew.karts[k].finished.None?;
    hide Rolling;
  }

  /** Over every run, each new score has the time its kart and its pilot's rescues give it. */
  lemma ScoresAreTimed(terrain: Terrain, run: seq<State>, events: seq<Event>, i: nat, x: Score) returns (k: nat)
    requires Run(terrain, run, events) && i < |events|
    requires x in run[i + 1].race.results && x !in run[i].race.results
    ensures TimedResult(run, events, i, k, x)
  {
    hide Step, Timed, Valid, Sorted, LapsOk, IsFine, Rolling;
    StateAt(terrain, run, events, i + 1);
    ScoresAlways(terrain, run, events, i);
    k := FinishingTick(terrain, run[i], events[i], x);
    StepGoes(terrain, run[i], events[i], k);
    PenaltyAlways(terrain, run, events, i, k);
    FinishTime(run[i], events[i], run[i + 1], k);
  }

  lemma FinishTime(s: State, e: Event, t: State, k: nat)
    requires Rolling(s.crew, k) && Rolling(t.crew, k) && e.Tick? && Goes(s, e, t, k) && Raced(s)
    requires s.crew.karts[k].finished.None? && t.crew.karts[k].nextGate > s.race.laps * GATES
    ensures t.race.tick == s.race.tick + 1 && t.crew.karts[k].pilot == s.crew.karts[k].pilot
    ensures t.crew.karts[k].finished == Some(t.race.tick - s.race.start + s.crew.karts[k].penalty)
  {}

  // ---- who gets a result -------------------------------------------------------------------

  lemma {:induction false} FinisherIn(race: Round, c: Crew, n: nat, k: nat)
    requires Finishes(race, c, k) && k < n
    ensures TimeOf(race, c, k) in Finishers(race, c, n)
  {
    hide Finishes;
    if k < n - 1 { FinisherIn(race, c, n - 1, k); }
  }

  lemma JudgeScoresFinishers(s: State, k: nat)
    requires Valid(s.world.track) && GridOk(s.crew) && Sorted(s.race.results)
    requires s.race.phase.Racing? && Finishes(s.race, s.crew, k)
    ensures TimeOf(s.race, s.crew, k) in Judge(s).race.results
  {
    assert k < s.crew.nextKart;
    hide Valid, GridOk, Judge, TimeOf, Finishes, SortScores;
    RoundEnds(s);
    var all := s.race.results + Finishers(s.race, s.crew, s.crew.nextKart);
    SortIsStable(all, 0);
    FinisherIn(s.race, s.crew, s.crew.nextKart, k);
    assert TimeOf(s.race, s.crew, k) in multiset(all);
  }

  /** A kart on the course finishes in the tick that brings it past the last gate, and then
      its pilot's result is on the list. */
  lemma FinishIsScored(terrain: Terrain, run: seq<State>, events: seq<Event>, i: nat, k: nat)
    requires Run(terrain, run, events) && i < |events|
    requires OnCourse(run[i], k) && Rolling(run[i + 1].crew, k) && run[i].crew.karts[k].finished.None?
    ensures var (s, t) := (run[i], run[i + 1]);
      && (t.crew.karts[k].finished.Some? <==> events[i].Tick? && Raced(s) && t.crew.karts[k].nextGate > s.race.laps * GATES)
      && (t.crew.karts[k].finished.Some? ==> Score(t.crew.karts[k].pilot, t.crew.karts[k].finished.value) in t.race.results)
  {
    hide Step, Timed, Valid, Sorted, LapsOk, Rolling, GridOk;
    StateAt(terrain, run, events, i + 1);
    ScoresAlways(terrain, run, events, i);
    StepGoes(terrain, run[i], events[i], k);
    StillThere(run[i + 1].crew, k);
    if run[i + 1].crew.karts[k].finished.Some? {
      FinisherIsScored(terrain, run[i], events[i], k);
    }
  }

  lemma FinisherIsScored(terrain: Terrain, s: State, e: Event, k: nat)
    requires Valid(s.world.track) && ValidEvent(s.crew, e) && Timed(s.race, s.crew, false) && Sorted(s.race.results)
    requires e.Tick? && Started(s.race.phase) && Raced(s)
    requires Rolling(s.crew, k) && Rolling(Step(terrain, s, e).crew, k) && Goes(s, e, Step(terrain, s, e), k)
    requires s.crew.karts[k].finished.None? && Step(terrain, s, e).crew.karts[k].finished.Some?
    ensures var kart := Step(terrain, s, e).crew.karts[k];
            Score(kart.pilot, kart.finished.value) in Step(terrain, s, e).race.results
  {
    hide Valid, GridOk, OnTime, Driving, Judge, TickRound, Sorted, Passes;
    TickStep(terrain, s, e);
    hide Step;
    var v := Driving(terrain, s, e.confirmed, e.crossing);
    TickIsJudged(terrain, s, e.confirmed, e.crossing);
    DrivingKeepsResults(terrain, s, e.confirmed, e.crossing);
    UnderWay(terrain, s, e.confirmed, e.crossing);
    JudgeCounters(v, k);
    JudgeStand(v, k);
    DrivenStand(terrain, s, e.confirmed, e.crossing, k);
    JudgeScoresFinishers(v, k);
  }

  // ---- laps ----------------------------------------------------------------------------------

  predicate CompletesLap(s: State, t: State, k: nat)
    requires Rolling(s.crew, k) && Rolling(t.crew, k)
  {
    t.crew.karts[k].nextGate != s.crew.karts[k].nextGate && (t.crew.karts[k].nextGate - 1) % GATES == 0
  }

  /** The ticks at which a kart has come past the first gate since it came onto the course. */
  ghost function LapTicks(run: seq<State>, i: nat, k: nat): seq<nat>
    requires i < |run| && Rolling(run[i].crew, k)
  {
    if i == 0 || !OnCourse(run[i - 1], k) then []
    else LapTicks(run, i - 1, k) + if CompletesLap(run[i - 1], run[i], k) then [run[i].race.tick] else []
  }

  function LapTime(ticks: seq<nat>, start: nat, j: nat): int
    requires j < |ticks|
  {
    ticks[j] - if j == 0 then start else ticks[j - 1]
  }

  /** No lap is shorter, and one is that short. */
  ghost predicate IsShortest(ticks: seq<nat>, start: nat, best: int) {
    && (forall j {:trigger LapTime(ticks, start, j)} :: 0 <= j < |ticks| ==> best <= LapTime(ticks, start, j))
    && (exists j {:trigger LapTime(ticks, start, j)} :: 0 <= j < |ticks| && LapTime(ticks, start, j) == best)
  }

  /** A racer's record against the ticks of its laps. */
  ghost predicate LapsTold(race: Round, c: Crew, k: nat, ticks: seq<nat>)
    requires Rolling(c, k)
  {
    var (gate, racer) := (c.karts[k].nextGate, RacerOf(c, k));
    && racer.Some? && racer.value.gate == gate && |ticks| == (gate - 1) / GATES
    && racer.value.lapStart == (if ticks == [] then 0 else ticks[|ticks| - 1])
    && (if ticks == [] then racer.value.bestLap.None?
        else racer.value.bestLap.Some? && IsShortest(ticks, race.start, racer.value.bestLap.value))
    && (ticks != [] ==> (race.phase.Racing? || race.phase.Destroying?) && race.start <= ticks[|ticks| - 1])
  }

  lemma AppendLap(ticks: seq<nat>, start: nat, tick: nat, best: Option<int>, now: int)
    requires if ticks == [] then best.None? else best.Some? && IsShortest(ticks, start, best.value)
    requires var time := tick - (if ticks == [] then start else ticks[|ticks| - 1]);
             now <= time && (best.Some? ==> now <= best.value) && (now == time || Some(now) == best)
    ensures IsShortest(ticks + [tick], start, now)
  {
    var all := ticks + [tick];
    forall j | 0 <= j < |ticks| ensures LapTime(all, start, j) == LapTime(ticks, start, j) {}
    if now != LapTime(all, start, |ticks|) {
      var j :| 0 <= j < |ticks| && LapTime(ticks, start, j) == now;
      assert LapTime(all, start, j) == now;
    }
  }

  lemma GatesOfLaps(a: nat, b: nat)
    requires 0 < a <= b <= a + 1
    ensures (b - 1) / GATES == (a - 1) / GATES + if b != a && (b - 1) % GATES == 0 then 1 else 0
  {}

  lemma LapsGo(s: State, e: Event, t: State, k: nat, ticks: seq<nat>)
    requires OnCourse(s, k) && Rolling(t.crew, k) && Goes(s, e, t, k) && LapsTold(s.race, s.crew, k, ticks)
    ensures LapsTold(t.race, t.crew, k, ticks + if CompletesLap(s, t, k) then [t.race.tick] else [])
  {
    var now := ticks + if CompletesLap(s, t, k) then [t.race.tick] else [];
    if CompletesLap(s, t, k) {
      assert e.Tick? && Raced(s);
      GatesOfLaps(s.crew.karts[k].nextGate, t.crew.karts[k].nextGate);
      AppendLap(ticks, s.race.start, t.race.tick, RacerOf(s.crew, k).value.bestLap, RacerOf(t.crew, k).value.bestLap.value);
    } else {
      assert now == ticks;
      GatesOfLaps(s.crew.karts[k].nextGate, t.crew.karts[k].nextGate);
    }
  }

  /** Over every run: a kart of the round has done one lap for every eight gates, its racer's
      lap began with the last of them, and its best lap is the shortest of the times between
      them, the first lap counted from the start of the race. */
  lemma {:induction false} LapsAlways(terrain: Terrain, run: seq<State>, events: seq<Event>, i: nat, k: nat)
    requires Run(terrain, run, events) && i < |run| && Rolling(run[i].crew, k)
    requires OnCourse(run[i], k) || (i > 0 && OnCourse(run[i - 1], k))
    ensures LapsTold(run[i].race, run[i].crew, k, LapTicks(run, i, k))
  {
    hide Step, Timed, Valid, Rolling, Goes, CompletesLap;
    StateAt(terrain, run, events, i);
    NobodyOnCourse(run[0], k);
    if i > 0 {
      var (s, e) := (run[i - 1], events[i - 1]);
      if OnCourse(s, k) {
        LapsAlways(terrain, run, events, i - 1, k);
        StepGoes(terrain, s, e, k);
        LapsGo(s, e, run[i], k, LapTicks(run, i - 1, k));
      } else {
        StepStarts(terrain, s, e, k);
      }
    }
  }

  lemma LapsStay(terrain: Terrain, s: State, e: Event)
    requires Valid(s.world.track) && ValidEvent(s.crew, e) && s.race.laps > 0
    ensures Step(terrain, s, e).race.laps > 0
  {
    hide Valid, TickRound, Enlist, EveryoneToLobby, ChunkList, Apply, BecomeReady, JoinGrid, LeaveRace, RescueKart,
         CancelTeleport, Pilots.Connect, Pilots.Disconnect;
    if e.Tick? {
      TickStep(terrain, s, e);
      TickIsJudged(terrain, s, e.confirmed, e.crossing);
      DrivingKeepsResults(terrain, s, e.confirmed, e.crossing);
      JudgeClock(Driving(terrain, s, e.confirmed, e.crossing));
      hide Step, Driving, Judge;
    }
  }

  lemma {:induction false} LapsPositive(terrain: Terrain, run: seq<State>, events: seq<Event>, i: nat)
    requires Run(terrain, run, events) && i < |run|
    ensures run[i].race.laps > 0
  {
    hide Step, Timed, Valid;
    if i > 0 {
      LapsPositive(terrain, run, events, i - 1);
      StateAt(terrain, run, events, i);
      LapsStay(terrain, run[i - 1], events[i - 1]);
    }
  }

  /** A kart without a time has gates ahead of it. */
  lemma {:induction false} GatesAhead(terrain: Terrain, run: seq<State>, events: seq<Event>, i: nat, k: nat)
    requires Run(terrain, run, events) && i < |run| && OnCourse(run[i], k) && run[i].crew.karts[k].finished.None?
    ensures run[i].crew.karts[k].nextGate <= run[i].race.laps * GATES
  {
    hide Step, Timed, Valid, Rolling, Passes;
    StateAt(terrain, run, events, i);
    NobodyOnCourse(run[0], k);
    LapsPositive(terrain, run, events, i);
    if i > 0 {
      var (s, e) := (run[i - 1], events[i - 1]);
      if OnCourse(s, k) {
        StepGoes(terrain, s, e, k);
        StillThere(s.crew, k);
        if s.crew.karts[k].finished.None? { GatesAhead(terrain, run, events, i - 1, k); }
      } else {
        StepStarts(terrain, s, e, k);
      }
    }
  }

  /** All laps of the round, the last of them just now, and their times with the penalties. */
  predicate AddsUp(race: Round, ticks: seq<nat>, tick: nat, time: nat, fines: nat) {
    && |ticks| == race.laps > 0 && ticks[|ticks| - 1] == tick
    && time == Total(ticks, race.start, |ticks|) + RESET_PENALTY * fines
  }

  /** Over every run: a new score is that of a kart that has just done all laps of the round,
      and its time is that of all laps together, with the penalties. */
  lemma ScoresAreLaps(terrain: Terrain, run: seq<State>, events: seq<Event>, i: nat, x: Score) returns (k: nat)
    requires Run(terrain, run, events) && i < |events|
    requires x in run[i + 1].race.results && x !in run[i].race.results
    ensures TimedResult(run, events, i, k, x) && Rolling(run[i + 1].crew, k)
    ensures AddsUp(run[i].race, LapTicks(run, i + 1, k), run[i + 1].race.tick, x.time, Fines(run, events, i, k))
  {
    k := ScoresAreTimed(terrain, run, events, i, x);
    FinalLap(terrain, run, events, i, k, x);
    TotalIsLast(LapTicks(run, i + 1, k), run[i].race.start, run[i].race.laps);
    hide *;
  }

  lemma FinalLap(terrain: Terrain, run: seq<State>, events: seq<Event>, i: nat, k: nat, x: Score)
    requires Run(terrain, run, events) && i < |events| && TimedResult(run, events, i, k, x)
    ensures var ticks := LapTicks(run, i + 1, k);
            |ticks| == run[i].race.laps > 0 && ticks[|ticks| - 1] == run[i + 1].race.tick
    ensures x.time == run[i + 1].race.tick - run[i].race.start + RESET_PENALTY * Fines(run, events, i, k)
  {
    hide Step, Timed, Valid, Rolling, Advanced, Fines, LapsTold, IsFine;
    StillThere(run[i].crew, k);
    StillThere(run[i + 1].crew, k);
    LapsPositive(terrain, run, events, i);
    GatesAhead(terrain, run, events, i, k);
    StateAt(terrain, run, events, i + 1);
    StepGoes(terrain, run[i], events[i], k);
    LapsAlways(terrain, run, events, i + 1, k);
    hide Run, OnCourse, Goes, CompletesLap;
    LastLap(run[i], events[i], run[i + 1], k, LapTicks(run, i, k));
  }

  lemma LastLap(s: State, e: Event, t: State, k: nat, ticks: seq<nat>)
    requires Rolling(s.crew, k) && Rolling(t.crew, k) && Goes(s, e, t, k) && s.race.laps > 0
    requires s.crew.karts[k].nextGate <= s.race.laps * GATES < t.crew.karts[k].nextGate
    requires LapsTold(t.race, t.crew, k, ticks + if CompletesLap(s, t, k) then [t.race.tick] else [])
    ensures CompletesLap(s, t, k) && |ticks| + 1 == s.race.laps
  {
    hide Passes, IsShortest;
    LapsInGates(s.race.laps, t.crew.karts[k].nextGate);
  }

  lemma LapsInGates(laps: nat, gate: nat)
    requires gate == laps * GATES + 1
    ensures (gate - 1) / GATES == laps && (gate - 1) % GATES == 0
  {}

  function Total(ticks: seq<nat>, start: nat, n: nat): int
    requires n <= |ticks|
  {
    if n == 0 then 0 else Total(ticks, start, n - 1) + LapTime(ticks, start, n - 1)
  }

  lemma {:induction false} TotalIsLast(ticks: seq<nat>, start: nat, n: nat)
    requires n <= |ticks|
    ensures Total(ticks, start, n) == if n == 0 then 0 else ticks[n - 1] - start
  {
    if n > 0 { TotalIsLast(ticks, start, n - 1); }
  }
}
