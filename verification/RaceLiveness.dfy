/** Every launched round comes back to Results within a number of ticks known at
    the launch, whatever players do meanwhile. */
module RaceLiveness {
  import opened Options
  import opened TrackIndex
  import opened Arena
  import opened Pilots
  import opened Seats
  import opened Race
  import opened RaceSeats
  import opened RaceWorld

  // ---- transfers of the round age together --------------------------------------------

  /** A transfer of a pilot of the round is a boarding of that age, within the timeout. */
  ghost predicate Clocked(c: Crew, p: nat, age: nat)
    requires p in c.players
  {
    Enlisted(c, p) && c.players[p].transfer.Some? ==>
      c.players[p].transfer == Some(Boarding) && c.players[p].teleport == Some(age) && age <= TIMEOUT
  }

  ghost predicate OnTime(c: Crew, age: nat) {
    forall p :: p in c.players ==> Clocked(c, p, age)
  }

  lemma LocalClocked(c: Crew, d: Crew, p: nat, q: nat, age: nat)
    requires GridOk(c) && Local(c, d, p) && q in c.players && q != p && Clocked(c, q, age)
    ensures Clocked(d, q, age)
  {
    assert RacerOk(c, q);
  }

  lemma EndTeleportClocked(c: Crew, p: nat, outcome: Outcome, age: nat)
    requires GridOk(c) && p in c.players && c.players[p].teleport.Some?
    ensures p in EndTeleport(c, p, outcome).players && Clocked(EndTeleport(c, p, outcome), p, age)
  {
    assert RacerOk(c, p);
    EndTeleportMarkers(c, p, outcome);
    if c.players[p].transfer == Some(Boarding) && outcome == TimedOut {
      TimeoutWithdraws(c, p);
    }
  }

  lemma AdvanceClocked(c: Crew, p: nat, confirmed: set<nat>, age: nat)
    requires GridOk(c) && p in c.players && Clocked(c, p, age)
    ensures p in AdvanceTeleport(c, p, confirmed).players && Clocked(AdvanceTeleport(c, p, confirmed), p, age + 1)
  {
    assert RacerOk(c, p);
    hide EndTeleport, GridOk;
    if c.players[p].teleport.Some? {
      var older := c.players[p].teleport.value + 1;
      if older > TIMEOUT {
        EndTeleportClocked(c, p, TimedOut, age + 1);
      } else if p in confirmed {
        EndTeleportClocked(c, p, Confirmed, age + 1);
      }
    }
  }

  lemma {:induction false} BarrierClocked(c: Crew, players: seq<nat>, confirmed: set<nat>, age: nat)
    requires GridOk(c) && OnTime(c, age) && Distinct(players) && forall p :: p in players ==> p in c.players
    ensures var d := Barrier(c, players, confirmed);
            && GridOk(d) && d.players.Keys == c.players.Keys
            && forall p :: p in c.players ==> Clocked(d, p, if p in players then age + 1 else age)
  {
    if players != [] {
      var (rest, p) := (players[..|players| - 1], players[|players| - 1]);
      assert players == rest + [p];
      BarrierClocked(c, rest, confirmed, age);
      var before := Barrier(c, rest, confirmed);
      var d := Barrier(c, players, confirmed);
      assert p !in rest;
      AdvanceTeleportGrid(before, p, confirmed);
      AdvanceTeleportLocal(before, p, confirmed);
      AdvanceClocked(before, p, confirmed, age);
      hide AdvanceTeleport, Clocked;
      forall q | q in c.players ensures Clocked(d, q, if q in players then age + 1 else age) {
        if q != p { LocalClocked(before, d, p, q, if q in rest then age + 1 else age); }
      }
    }
  }

  lemma BarrierOnTime(c: Crew, confirmed: set<nat>, age: nat)
    requires GridOk(c) && OnTime(c, age)
    ensures OnTime(Barrier(c, c.order, confirmed), age + 1)
  {
    BarrierClocked(c, c.order, confirmed, age);
  }

  lemma ScoredOnTime(c: Crew, d: Crew, age: nat)
    requires GridOk(c) && Scored(c, d) && OnTime(c, age)
    ensures OnTime(d, age)
  {
    forall q | q in d.players ensures Clocked(d, q, age) {
      assert RacerOk(c, q) && Clocked(c, q, age);
    }
  }

  lemma LeaveGridOnTime(c: Crew, p: nat, age: nat)
    requires GridOk(c) && p in c.players && OnTime(c, age)
    ensures OnTime(LeaveGrid(c, p), age) && p in LeaveGrid(c, p).players && !Enlisted(LeaveGrid(c, p), p)
  {
    assert RacerOk(c, p);
    var d := LeaveGrid(c, p);
    forall q | q in d.players ensures Clocked(d, q, age) {
      assert RacerOk(c, q) && Clocked(c, q, age);
    }
  }

  lemma LeaveOnTime(c: Crew, p: nat, age: nat)
    requires GridOk(c) && OnTime(c, age) && p in c.players
    ensures GridOk(LeaveRace(c, p)) && OnTime(LeaveRace(c, p), age)
  {
    if p in c.roster {
      LeaveGridGrid(c, p);
      LeaveGridOnTime(c, p, age);
      var left := LeaveGrid(c, p);
      SendToLobbyGrid(left, p);
      SendToLobbyLocal(left, p);
      assert RacerOk(left, p);
      var d := SendToLobby(left, p);
      forall q | q in d.players ensures Clocked(d, q, age) {
        if q != p { LocalClocked(left, d, p, q, age); }
      }
    }
  }

  lemma JoinOnTime(c: Crew, p: nat, age: nat)
    requires GridOk(c) && OnTime(c, age)
    ensures OnTime(JoinGrid(c, p), age)
  {
    var d := JoinGrid(c, p);
    forall q | q in d.players ensures Clocked(d, q, age) {
      assert RacerOk(c, q) && Clocked(c, q, age);
    }
  }

  lemma DespawnOnTime(c: Crew, p: nat, age: nat)
    requires GridOk(c) && OnTime(c, age)
    ensures OnTime(Despawn(c, p), age)
  {
    var d := Despawn(c, p);
    forall q | q in d.players ensures Clocked(d, q, age) {
      assert RacerOk(c, q) && Clocked(c, q, age);
    }
  }

  lemma DisconnectOnTime(c: Crew, p: nat, age: nat)
    requires GridOk(c) && OnTime(c, age)
    ensures OnTime(Pilots.Disconnect(c, p), age)
  {
    if p in c.players {
      LeaveGridGrid(c, p);
      LeaveGridOnTime(c, p, age);
      DespawnOnTime(LeaveGrid(c, p), p, age);
      DespawnOnTime(c, p, age);
    }
  }

  lemma ReadyOnTime(c: Crew, p: nat, age: nat)
    requires GridOk(c) && OnTime(c, age)
    ensures OnTime(BecomeReady(c, p), age)
  {
    if p in c.players {
      assert RacerOk(c, p) && Clocked(c, p, age);
      var marked := WithPlayer(c, p, c.players[p].(ready := true));
      WithPlayerLocal(c, p, c.players[p].(ready := true));
      FlyLocal(marked, p);
      var d := Fly(marked, p);
      LocalChain(c, marked, d, p);
      FlyKeepsMarkers(marked, p);
      assert RacerOk(d, p) && Clocked(d, p, age);
      LocalGrid(c, d, p);
      forall q | q in d.players ensures Clocked(d, q, age) {
        if q != p { LocalClocked(c, d, p, q, age); }
      }
      JoinOnTime(d, p, age);
    }
  }

  lemma FlyKeepsMarkers(c: Crew, p: nat)
    requires p in c.players
    ensures var d := Fly(c, p);
            p in d.players && d.players[p] == c.players[p].(airborne := true)
            && forall k :: k in c.karts ==> k in d.karts && d.karts[k].participant == c.karts[k].participant
  {}

  lemma CancelOnTime(c: Crew, p: nat, age: nat)
    requires GridOk(c) && OnTime(c, age)
    ensures GridOk(CancelTeleport(c, p)) && OnTime(CancelTeleport(c, p), age)
  {
    if p in c.players && c.players[p].teleport.Some? {
      EndTeleportLocal(c, p, Cancelled);
      EndTeleportGrid(c, p, Cancelled);
      EndTeleportClocked(c, p, Cancelled, age);
      hide EndTeleport;
      var d := EndTeleport(c, p, Cancelled);
      forall q | q in d.players ensures Clocked(d, q, age) {
        if q != p { LocalClocked(c, d, p, q, age); }
      }
    }
  }

  lemma BoardOneClocked(c: Crew, p: nat)
    requires GridOk(c)
    ensures p in c.players ==> p in BoardOne(c, p).players && Clocked(BoardOne(c, p), p, 0)
  {
    BoardOneLocal(c, p);
    BoardOneGrid(c, p);
    hide BoardOne, GridOk;
  }

  lemma LocalTables(c: Crew, d: Crew, p: nat)
    requires Local(c, d, p)
    ensures d.players.Keys == c.players.Keys && d.roster == c.roster
  {}

  /** Boarding starts a new clock for every pilot of the round. */
  lemma {:induction false} BoardAllClocked(c: Crew, players: seq<nat>)
    requires GridOk(c)
    ensures var d := BoardAll(c, players);
            && GridOk(d) && d.players.Keys == c.players.Keys && d.roster == c.roster
            && (forall q :: q in c.players ==> (Enlisted(d, q) <==> Enlisted(c, q)))
            && (forall q :: q in c.players && q in players ==> Clocked(d, q, 0))
  {
    hide GridOk, BoardOne, Clocked, Enlisted, Local;
    if players != [] {
      var (rest, p) := (players[..|players| - 1], players[|players| - 1]);
      assert players == rest + [p];
      BoardAllClocked(c, rest);
      var before := BoardAll(c, rest);
      BoardOneGrid(before, p);
      BoardOneLocal(before, p);
      BoardOneClocked(before, p);
      var d := BoardAll(c, players);
      LocalTables(before, d, p);
      forall q | q in c.players && q in players ensures Clocked(d, q, 0) {
        if q != p { LocalClocked(before, d, p, q, 0); }
      }
    }
  }

  lemma BoardAllOnTime(c: Crew)
    requires GridOk(c)
    ensures GridOk(BoardAll(c, c.roster)) && OnTime(BoardAll(c, c.roster), 0)
  {
    BoardAllClocked(c, c.roster);
    var d := BoardAll(c, c.roster);
    forall q | q in d.players ensures Clocked(d, q, 0) {
      assert RacerOk(d, q);
    }
  }

  // ---- the ticks that are left ----------------------------------------------------------

  function Left(end: nat, now: nat): nat {
    if now <= end then end - now else 0
  }

  /** Ticks to work off a stack of n chunks, one every other tick. */
  function StackTicks(n: nat, tick: nat): nat {
    if n == 0 then 1 else BUILD_PERIOD * n - tick % BUILD_PERIOD
  }

  /** Ticks until Results at the latest, for a circuit of n chunks. */
  function BudgetOf(race: Round, n: nat): nat {
    var driving := race.TimeLimit() + StackTicks(n, 0);
    match race.phase
    case Lobby => 0
    case Results => 0
    case Generating => StackTicks(|race.pending|, race.tick) + TIMEOUT + 1 + COUNTDOWN + driving
    case Loading => Left(TIMEOUT + 1, Left(race.tick, race.loadedAt)) + COUNTDOWN + driving
    case Countdown => Left(race.start, race.tick) + driving
    case Racing => Left(race.TimeLimit(), race.Elapsed()) + StackTicks(n, 0)
    case Destroying => StackTicks(|race.pending|, race.tick)
  }

  ghost function Budget(s: State): nat
    requires Valid(s.world.track)
  {
    BudgetOf(s.race, |ChunkList(s.world.track)|)
  }

  /** The timers of the phase, at most those of a system that runs `during` a tick. */
  ghost predicate Timed(race: Round, c: Crew, during: bool) {
    && GridOk(c)
    && (race.phase.Loading? ==>
         && race.loadedAt <= race.tick && OnTime(c, race.tick - race.loadedAt)
         && (!during ==> race.tick - race.loadedAt <= TIMEOUT))
    && (race.phase.Countdown? ==> race.tick <= race.start <= race.tick + COUNTDOWN && (!during ==> race.tick < race.start))
    && (race.phase.Racing? ==> race.start <= race.tick && (!during ==> race.Elapsed() < race.TimeLimit()))
  }

  ghost function Ticked(s: State, confirmed: set<nat>): State {
    State(s.race.(tick := s.race.tick + 1), Barrier(s.crew, s.crew.order, confirmed), s.world)
  }

  lemma ClockTimed(s: State, confirmed: set<nat>)
    requires Timed(s.race, s.crew, false)
    ensures Timed(Ticked(s, confirmed).race, Ticked(s, confirmed).crew, true)
  {
    BarrierGrid(s.crew, s.crew.order, confirmed);
    hide GridOk, OnTime, Barrier;
    if s.race.phase.Loading? {
      BarrierOnTime(s.crew, confirmed, s.race.tick - s.race.loadedAt);
    }
  }

  lemma ConstructTimed(terrain: Terrain, s: State)
    requires Valid(s.world.track) && Timed(s.race, s.crew, true)
    ensures var t := Construct(terrain, s); Timed(t.race, t.crew, true)
  {
    BoardAllOnTime(s.crew);
    hide GridOk, OnTime, BoardAll, Apply, Valid;
  }

  /** Time passes, or the stack shrinks, or the stack is done. */
  lemma ClockBudget(race: Round, after: Round, n: nat)
    requires !race.phase.Idle()
    requires race.phase.Generating? ==> |race.pending| <= n
    requires race.phase.Loading? ==> race.loadedAt <= race.tick <= race.loadedAt + TIMEOUT
    requires race.phase.Countdown? ==> race.tick < race.start
    requires race.phase.Racing? ==> race.start <= race.tick && race.Elapsed() < race.TimeLimit()
    requires Constructs(race.(tick := race.tick + 1), after)
    ensures BudgetOf(after, n) < BudgetOf(race, n)
  {}

  /** What construction makes of the round. */
  predicate Constructs(race: Round, after: Round) {
    var n := |race.pending|;
    if Waits(race) then after == race
    else
      var popped := if n == 0 then race else race.(pending := race.pending[..n - 1]);
      if n > 1 then after == popped
      else if race.phase.Generating? then after == popped.(phase := Loading, loadedAt := race.tick)
      else after == popped.(phase := Results)
  }

  lemma ConstructConstructs(terrain: Terrain, s: State)
    requires Valid(s.world.track)
    ensures Constructs(s.race, Construct(terrain, s).race)
    ensures Construct(terrain, s).world.track == s.world.track
  {
    hide Valid, BoardAll, Generate;
  }

  lemma LoadTimed(s: State, n: nat)
    requires Timed(s.race, s.crew, true)
    ensures var t := Load(s);
            && Timed(t.race, t.crew, true) && t.world == s.world
            && (t.race.phase.Loading? ==> t.race.tick - t.race.loadedAt <= TIMEOUT)
            && BudgetOf(t.race, n) <= BudgetOf(s.race, n)
  {
    if s.race.phase.Loading? && Transferring(s.crew) {
      var c := s.crew;
      var k :| k in c.karts && c.karts[k].participant && OnTransfer(c, c.karts[k].pilot);
      var p := c.karts[k].pilot;
      assert RacerOk(c, p) && Clocked(c, p, s.race.tick - s.race.loadedAt);
      SeatIsUnique(c, p);
    }
    hide GridOk, OnTime, Transferring;
  }

  lemma DrivesTimed(s: State, crossing: set<nat>)
    requires Valid(s.world.track) && Timed(s.race, s.crew, true)
    requires s.race.phase.Loading? ==> s.race.tick - s.race.loadedAt <= TIMEOUT
    ensures var t := Drives(s, crossing);
            Timed(t.race, t.crew, false) && t.world == s.world && Budget(t) <= Budget(s)
  {
    var race := CountDown(s.race);
    var c := Drive(race, s.crew, crossing);
    DriveScored(race, s.crew, crossing);
    ScoredGrid(s.crew, c);
    if race.phase.Loading? { ScoredOnTime(s.crew, c, race.tick - race.loadedAt); }
    JudgeTimed(State(race, c, s.world));
    hide GridOk, OnTime, Valid, ChunkList, Drive, Judge, Scored;
  }

  lemma JudgeTimed(s: State)
    requires Valid(s.world.track) && Timed(s.race, s.crew, true)
    requires s.race.phase.Loading? ==> s.race.tick - s.race.loadedAt <= TIMEOUT
    requires s.race.phase.Countdown? ==> s.race.tick < s.race.start
    ensures var t := Judge(s);
            Timed(t.race, t.crew, false) && t.world == s.world && Budget(t) <= Budget(s)
  {
    var t := TallyKarts(s.race, s.crew, s.crew.nextKart);
    TallyScored(s.race, s.crew, s.crew.nextKart);
    ScoredGrid(s.crew, t.crew);
    EveryoneToLobbyGrid(t.crew, t.crew.order);
    hide GridOk, OnTime, Valid, ChunkList, TallyKarts, EveryoneToLobby, Scored;
  }

  lemma ClockConstruct(terrain: Terrain, s: State, confirmed: set<nat>)
    requires WorldOk(terrain, s) && Timed(s.race, s.crew, false)
    ensures Valid(s.world.track)
    ensures var built := Construct(terrain, Ticked(s, confirmed));
            && built.world.track == s.world.track && Timed(built.race, built.crew, true)
            && (!s.race.phase.Idle() ==> Budget(built) < Budget(s))
  {
    hide WorldOk, Valid, ChunkList, Barrier, Construct, BudgetOf, Constructs, Timed;
    StackFits(terrain, s);
    var ticked := Ticked(s, confirmed);
    ConstructConstructs(terrain, ticked);
    ClockTimed(s, confirmed);
    ConstructTimed(terrain, ticked);
    if !s.race.phase.Idle() {
      Timers(s.race, s.crew);
      ClockBudget(s.race, Construct(terrain, ticked).race, |ChunkList(s.world.track)|);
    }
  }

  lemma StackFits(terrain: Terrain, s: State)
    requires WorldOk(terrain, s)
    ensures Valid(s.world.track) && (s.race.phase.Generating? ==> |s.race.pending| <= |ChunkList(s.world.track)|)
  {
    hide Valid, ChunkList, Generate, Elements;
  }

  lemma Timers(race: Round, c: Crew)
    requires Timed(race, c, false)
    ensures race.phase.Loading? ==> race.loadedAt <= race.tick <= race.loadedAt + TIMEOUT
    ensures race.phase.Countdown? ==> race.tick < race.start
    ensures race.phase.Racing? ==> race.start <= race.tick && race.Elapsed() < race.TimeLimit()
  {
    hide GridOk, OnTime;
  }

  /** Every tick of a round is one tick nearer to its end. */
  lemma TickBudget(terrain: Terrain, s: State, confirmed: set<nat>, crossing: set<nat>)
    requires WorldOk(terrain, s) && Timed(s.race, s.crew, false)
    ensures Valid(s.world.track)
    ensures var t := TickRound(terrain, s, confirmed, crossing);
            && Timed(t.race, t.crew, false) && t.world.track == s.world.track
            && (if s.race.phase.Idle() then t.race.phase == s.race.phase else Budget(t) < Budget(s))
  {
    hide WorldOk, Valid, ChunkList, Barrier, Construct, Load, Drives, BudgetOf, Timed;
    ClockConstruct(terrain, s, confirmed);
    var built := Construct(terrain, Ticked(s, confirmed));
    LoadTimed(built, |ChunkList(s.world.track)|);
    DrivesTimed(Load(built), crossing);
    if s.race.phase.Idle() { IdleTick(terrain, Ticked(s, confirmed), crossing); }
  }

  lemma IdleTick(terrain: Terrain, s: State, crossing: set<nat>)
    requires Valid(s.world.track) && s.race.phase.Idle()
    ensures var t := Construct(terrain, s);
            t.world == s.world && Drives(Load(t), crossing).race.phase == s.race.phase
  {
    hide Valid;
  }

  // ---- runs -----------------------------------------------------------------------------

  lemma CrewEventTimed(s: State, e: Event, terrain: Terrain)
    requires Valid(s.world.track) && Timed(s.race, s.crew, false) && ValidEvent(s.crew, e)
    requires !e.Tick? && !e.Launch?
    ensures var t := Step(terrain, s, e); t.race == s.race && t.world.track == s.world.track && Timed(t.race, t.crew, false)
  {
    hide GridOk, OnTime, Valid;
    var age := if s.race.phase.Loading? then s.race.tick - s.race.loadedAt else 0;
    if s.race.phase.Loading? { CrewEventOnTime(s.race, s.crew, e, age); }
    CrewEventGrid(s.race, s.crew, e);
    hide AfterEvent;
    CrewEventStep(terrain, s, e);
  }

  lemma CrewEventStep(terrain: Terrain, s: State, e: Event)
    requires Valid(s.world.track) && ValidEvent(s.crew, e) && !e.Tick? && !e.Launch?
    ensures var t := Step(terrain, s, e);
            t.race == s.race && t.world.track == s.world.track && t.crew == AfterEvent(s.race, s.crew, e)
  {
    hide Valid, Generate, BecomeReady, JoinGrid, LeaveRace, RescueKart, CancelTeleport, Pilots.Connect, Pilots.Disconnect;
  }

  ghost function AfterEvent(race: Round, c: Crew, e: Event): Crew {
    match e
    case Connect => Pilots.Connect(c)
    case Ready(p) => BecomeReady(c, p)
    case Disconnect(p) => Pilots.Disconnect(c, p)
    case Join(p) => JoinGrid(c, p)
    case Leave(p) => LeaveRace(c, p)
    case Rescue(p) => RescueKart(race, c, p)
    case Cancel(p) => CancelTeleport(c, p)
    case _ => c
  }

  lemma CrewEventOnTime(race: Round, c: Crew, e: Event, age: nat)
    requires GridOk(c) && OnTime(c, age) && ValidEvent(c, e)
    ensures OnTime(AfterEvent(race, c, e), age)
  {
    hide GridOk, OnTime, BecomeReady, JoinGrid, LeaveRace, RescueKart, CancelTeleport, Pilots.Connect, Pilots.Disconnect, Scored;
    match e
    case Connect => ConnectOnTime(c, age);
    case Ready(p) => ReadyOnTime(c, p, age);
    case Disconnect(p) => DisconnectOnTime(c, p, age);
    case Join(p) => JoinOnTime(c, p, age);
    case Leave(p) => LeaveOnTime(c, p, age);
    case Rescue(p) =>
      RescueScored(race, c, p);
      ScoredOnTime(c, RescueKart(race, c, p), age);
    case Cancel(p) => CancelOnTime(c, p, age);
    case _ =>
  }

  lemma ConnectOnTime(c: Crew, age: nat)
    requires GridOk(c) && OnTime(c, age)
    ensures OnTime(Pilots.Connect(c), age)
  {
    var d := Pilots.Connect(c);
    forall q | q in d.players ensures Clocked(d, q, age) {
      if q != c.nextPlayer { assert Clocked(c, q, age); }
    }
  }

  lemma CrewEventGrid(race: Round, c: Crew, e: Event)
    requires GridOk(c) && ValidEvent(c, e)
    ensures GridOk(AfterEvent(race, c, e))
  {
    hide GridOk, BecomeReady, JoinGrid, LeaveGrid, SendToLobby, RescueKart, EndTeleport, Pilots.Connect, Pilots.Disconnect, Scored;
    match e
    case Connect => ConnectGrid(c);
    case Ready(p) => BecomeReadyGrid(c, p);
    case Disconnect(p) => DisconnectGrid(c, p);
    case Join(p) => JoinGridGrid(c, p);
    case Leave(p) =>
      LeaveGridGrid(c, p);
      SendToLobbyGrid(LeaveGrid(c, p), p);
    case Rescue(p) =>
      RescueScored(race, c, p);
      ScoredGrid(c, RescueKart(race, c, p));
    case Cancel(p) =>
      if c.players[p].teleport.Some? { EndTeleportGrid(c, p, Cancelled); }
    case _ =>
  }

  lemma LaunchTimed(terrain: Terrain, s: State, p: nat, laps: nat, track: Track)
    requires Valid(s.world.track) && Valid(track) && Timed(s.race, s.crew, false)
    ensures var t := LaunchRound(terrain, s, p, laps, track);
            Timed(t.race, t.crew, false) && (!s.race.phase.Idle() ==> t == s)
  {
    EnlistGrid(s.crew, s.crew.roster);
    EveryoneToLobbyGrid(Enlist(s.crew, s.crew.roster), s.crew.order);
    hide GridOk, OnTime, Valid, Enlist, EveryoneToLobby, ChunkList, Apply;
  }

  /** One step of any kind: ticks use up the budget, nothing ever adds to it but
      the launch of the next round. */
  lemma StepBudget(terrain: Terrain, s: State, e: Event)
    requires WorldOk(terrain, s) && Timed(s.race, s.crew, false) && ValidEvent(s.crew, e)
    ensures Valid(s.world.track)
    ensures var t := Step(terrain, s, e);
            && Timed(t.race, t.crew, false)
            && Valid(t.world.track)
            && (!s.race.phase.Idle() ==> Budget(t) + (if e.Tick? then 1 else 0) <= Budget(s))
            && (s.race.phase.Idle() && !e.Launch? ==> t.race.phase == s.race.phase)
  {
    StepWorld(terrain, s, e);
    assert Valid(s.world.track) && Valid(Step(terrain, s, e).world.track);
    hide WorldOk, Valid, ChunkList, TickRound, LaunchRound, Apply, Timed;
    match e
    case Tick(confirmed, crossing) => TickBudget(terrain, s, confirmed, crossing);
    case Launch(p, laps, track) => LaunchTimed(terrain, s, p, laps, track);
    case _ => CrewEventTimed(s, e, terrain);
  }

  lemma InitialTimed(s: State)
    requires Initial(s)
    ensures Timed(s.race, s.crew, false)
  {}

  lemma {:induction false} TimedAlways(terrain: Terrain, run: seq<State>, events: seq<Event>, k: nat)
    requires Run(terrain, run, events) && k < |run|
    ensures WorldOk(terrain, run[k]) && Timed(run[k].race, run[k].crew, false)
  {
    hide WorldOk, Timed, Budget, Valid, Step;
    WorldAlways(terrain, run, events, k);
    if k == 0 {
      InitialTimed(run[0]);
    } else {
      TimedAlways(terrain, run, events, k - 1);
      assert StepTo(terrain, run[k - 1], events[k - 1], run[k]);
      StepBudget(terrain, run[k - 1], events[k - 1]);
    }
  }

  lemma GridAlways(terrain: Terrain, run: seq<State>, events: seq<Event>, i: nat)
    requires Run(terrain, run, events) && i < |run|
    ensures GridOk(run[i].crew)
  {
    hide Run, GridOk, OnTime, WorldOk;
    TimedAlways(terrain, run, events, i);
  }

  function Ticks(events: seq<Event>): nat {
    if events == [] then 0 else Ticks(events[..|events| - 1]) + if events[|events| - 1].Tick? then 1 else 0
  }

  lemma TrackAlways(terrain: Terrain, run: seq<State>, events: seq<Event>, k: nat)
    requires Run(terrain, run, events) && k < |run|
    ensures Valid(run[k].world.track)
  {
    hide Valid;
    WorldAlways(terrain, run, events, k);
  }

  lemma RunBudget(terrain: Terrain, run: seq<State>, events: seq<Event>, k: nat)
    requires Run(terrain, run, events) && k < |events| && !run[k].race.phase.Idle()
    ensures Valid(run[k].world.track) && Valid(run[k + 1].world.track)
    ensures Budget(run[k + 1]) + (if events[k].Tick? then 1 else 0) <= Budget(run[k])
  {
    hide WorldOk, Timed, Budget, Valid, Step;
    TimedAlways(terrain, run, events, k);
    assert StepTo(terrain, run[k], events[k], run[k + 1]);
    StepBudget(terrain, run[k], events[k]);
  }

  /** As long as the round has not come back to Results, each tick since state `from`
      has used up one of the ticks left there. */
  lemma {:induction false} BudgetRunsOut(terrain: Terrain, run: seq<State>, events: seq<Event>, from: nat, to: nat)
    requires Run(terrain, run, events) && from <= to < |run|
    requires forall k :: from <= k < to ==> !run[k].race.phase.Idle()
    ensures Valid(run[from].world.track) && Valid(run[to].world.track)
    ensures Budget(run[to]) + Ticks(events[from..to]) <= Budget(run[from])
  {
    hide Budget, Step, Valid;
    TrackAlways(terrain, run, events, from);
    TrackAlways(terrain, run, events, to);
    if from < to {
      BudgetRunsOut(terrain, run, events, from, to - 1);
      RunBudget(terrain, run, events, to - 1);
      assert events[from..to][..to - from - 1] == events[from..to - 1];
    } else {
      assert events[from..to] == [];
    }
  }

  /** Nothing leads into the lobby: a server is there only until its first round. */
  lemma LobbyIsFirst(terrain: Terrain, s: State, e: Event)
    requires Valid(s.world.track) && ValidEvent(s.crew, e) && Step(terrain, s, e).race.phase.Lobby?
    ensures s.race.phase.Lobby?
  {
    hide Valid, ChunkList, Barrier, BoardAll, Apply, TallyKarts, EveryoneToLobby;
  }

  lemma {:induction false} NotBackToLobby(terrain: Terrain, run: seq<State>, events: seq<Event>, from: nat, k: nat)
    requires Run(terrain, run, events) && from <= k < |run| && !run[from].race.phase.Lobby?
    ensures !run[k].race.phase.Lobby?
  {
    hide Step, Valid;
    if from < k {
      NotBackToLobby(terrain, run, events, from, k - 1);
      assert StepTo(terrain, run[k - 1], events[k - 1], run[k]);
      if run[k].race.phase.Lobby? {
        LobbyIsFirst(terrain, run[k - 1], events[k - 1]);
      }
    }
  }

  /** A round in progress is back in Results before the ticks left are exceeded. */
  lemma ReturnsToResults(terrain: Terrain, run: seq<State>, events: seq<Event>, from: nat)
    requires Run(terrain, run, events) && from < |run| && Valid(run[from].world.track)
    requires Ticks(events[from..]) > Budget(run[from])
    ensures run[from].race.phase.Idle() || exists k :: from < k < |run| && run[k].race.phase.Results?
  {
    hide Valid, Budget, Step;
    assert events[from..|run| - 1] == events[from..];
    TrackAlways(terrain, run, events, |run| - 1);
    if forall k :: from <= k < |run| ==> !run[k].race.phase.Idle() {
      BudgetRunsOut(terrain, run, events, from, |run| - 1);
    }
    if !run[from].race.phase.Idle() {
      var k :| from <= k < |run| && run[k].race.phase.Idle();
      NotBackToLobby(terrain, run, events, from, k);
    }
  }

  /** What a launch may cost: two ticks a chunk to build and to demolish, the
      teleport timeout, the countdown and the time limit. */
  lemma LaunchBudget(terrain: Terrain, s: State, p: nat, laps: nat, track: Track)
    requires Valid(s.world.track) && Valid(track) && WorldOk(terrain, s) && Launches(s, p, laps) && track.index != map[]
    ensures var t := LaunchRound(terrain, s, p, laps, track);
            && t.world.track == track
            && Budget(t) <= 4 * |ChunkList(track)| + TIMEOUT + 1 + COUNTDOWN + t.race.TimeLimit()
  {
    assert s.world.built == {};
    assert ChunkList(track) != [] by {
      ChunksOnce(track);
      var pos :| pos in track.index;
      assert pos in Elements(ChunkList(track));
    }
    hide Valid, ChunkList, Enlist, EveryoneToLobby;
  }

  /** The countdown lasts exactly its hundred ticks. */
  lemma {:induction false} CountdownIsExact(terrain: Terrain, run: seq<State>, events: seq<Event>, from: nat, to: nat)
    requires Run(terrain, run, events) && from <= to < |run|
    requires run[from].race.phase.Countdown?
    requires Ticks(events[from..to]) < run[from].race.start - run[from].race.tick
    ensures run[to].race.phase.Countdown? && run[to].race.start == run[from].race.start
    ensures run[to].race.tick == run[from].race.tick + Ticks(events[from..to])
  {
    hide Step, Valid;
    if from < to {
      assert events[from..to][..to - from - 1] == events[from..to - 1];
      CountdownIsExact(terrain, run, events, from, to - 1);
      assert StepTo(terrain, run[to - 1], events[to - 1], run[to]);
      CountdownStep(terrain, run[to - 1], events[to - 1]);
    }
  }

  lemma CountdownStep(terrain: Terrain, s: State, e: Event)
    requires Valid(s.world.track) && ValidEvent(s.crew, e) && s.race.phase.Countdown? && s.race.tick < s.race.start
    ensures var t := Step(terrain, s, e);
            if !e.Tick? then t.race == s.race
            else t.race.tick == s.race.tick + 1 &&
                 if t.race.tick < s.race.start then t.race.phase.Countdown? && t.race.start == s.race.start
                 else t.race.phase.Racing? || t.race.phase.Destroying?
  {
    hide Valid, Generate, ChunkList, Barrier, Drive, TallyKarts, EveryoneToLobby, Enlist;
  }

  /** The countdown begins in the tick that leaves no pilot of the round under transfer, and then
      a hundred ticks are left. */
  lemma CountdownBegins(terrain: Terrain, s: State, e: Event)
    requires Valid(s.world.track) && ValidEvent(s.crew, e) && (s.race.phase.Countdown? ==> s.race.tick < s.race.start)
    ensures var t := Step(terrain, s, e);
      && (s.race.phase.Loading? && e.Tick? ==> (t.race.phase.Countdown? <==> !Transferring(t.crew)))
      && (!s.race.phase.Countdown? && t.race.phase.Countdown? ==> e.Tick? && t.race.start == t.race.tick + 100)
  {
    hide Valid, Apply, Barrier, BoardAll, TallyKarts, EveryoneToLobby, Enlist, ChunkList, Transferring, BecomeReady, JoinGrid,
         LeaveRace, RescueKart, CancelTeleport, Pilots.Connect, Pilots.Disconnect;
    if e.Tick? {
      var ticked := Ticked(s, e.confirmed);
      ConstructTrack(terrain, ticked);
      var built := Load(Construct(terrain, ticked));
      assert built.race.phase.Loading? || built.race.phase.Countdown? ==> Drive(CountDown(built.race), built.crew, e.crossing) == built.crew || CountDown(built.race).phase.Racing?;
    }
  }
}
