/** The boarding barrier over every run of the round machine. */
module RaceSeats {
  import opened TrackIndex
  import opened Arena
  import opened Pilots
  import opened Seats
  import opened Race

  // ---- the steps that only keep score -----------------------------------------------

  /** Gates, times and penalties may differ, nothing else. */
  ghost predicate Scored(c: Crew, d: Crew) {
    && d.order == c.order && d.roster == c.roster && d.nextPlayer == c.nextPlayer && d.nextKart == c.nextKart
    && d.players.Keys == c.players.Keys && d.karts.Keys == c.karts.Keys
    && (forall p :: p in c.players ==>
         d.players[p] == c.players[p].(racer := d.players[p].racer) && SameRacer(c.players[p].racer, d.players[p].racer))
    && (forall k :: k in c.karts ==>
         var kart := d.karts[k];
         kart == c.karts[k].(finished := kart.finished, nextGate := kart.nextGate, penalty := kart.penalty))
  }

  lemma ScoredChain(c: Crew, d: Crew, e: Crew)
    requires Scored(c, d) && Scored(d, e)
    ensures Scored(c, e)
  {
    forall p | p in c.players
      ensures e.players[p] == c.players[p].(racer := e.players[p].racer) && SameRacer(c.players[p].racer, e.players[p].racer) {
      assert p in d.players;
    }
    forall k | k in c.karts
      ensures var kart := e.karts[k];
              kart == c.karts[k].(finished := kart.finished, nextGate := kart.nextGate, penalty := kart.penalty) {
      assert k in d.karts;
    }
  }

  lemma ScoredGrid(c: Crew, d: Crew)
    requires GridOk(c) && Scored(c, d)
    ensures GridOk(d)
  {
    assert KartsOk(d);
    forall q | q in d.players ensures RacerOk(d, q) { assert RacerOk(c, q); }
  }

  lemma ScoredSeats(c: Crew, d: Crew, loading: bool, started: bool)
    requires SeatsOk(c, loading, started) && Scored(c, d)
    ensures SeatsOk(d, loading, started)
  {
    ScoredGrid(c, d);
    forall q | q in d.players ensures Fit(d, q, loading, started) {
      assert RacerOk(c, q) && Fit(c, q, loading, started);
    }
  }

  lemma TallyKartScored(race: Round, t: Tally, k: nat)
    ensures Scored(t.crew, TallyKart(race, t, k).crew)
  {
    hide SortScores;
  }

  lemma TallyUnfolds(race: Round, c: Crew, n: nat)
    requires n > 0
    ensures TallyKarts(race, c, n) == TallyKart(race, TallyKarts(race, c, n - 1), n - 1)
  {}

  lemma ScoredSelf(c: Crew)
    ensures Scored(c, c)
  {}

  lemma TallyStepScored(race: Round, c: Crew, t: Tally, k: nat)
    requires Scored(c, t.crew)
    ensures Scored(c, TallyKart(race, t, k).crew)
  {
    hide TallyKart, Scored;
    TallyKartScored(race, t, k);
    ScoredChain(c, t.crew, TallyKart(race, t, k).crew);
  }

  lemma {:induction false} TallyScored(race: Round, c: Crew, n: nat)
    ensures Scored(c, TallyKarts(race, c, n).crew)
  {
    hide TallyKart, Scored;
    if n == 0 {
      ScoredSelf(c);
    } else {
      TallyScored(race, c, n - 1);
      TallyStepScored(race, c, TallyKarts(race, c, n - 1), n - 1);
    }
  }

  lemma DriveScored(race: Round, c: Crew, crossing: set<nat>)
    ensures Scored(c, Drive(race, c, crossing))
  {}

  lemma RescueScored(race: Round, c: Crew, p: nat)
    ensures Scored(c, RescueKart(race, c, p))
  {}

  // ---- the barrier, phase by phase ---------------------------------------------------

  predicate Started(phase: Phase) {
    phase.Loading? || phase.Countdown? || phase.Racing?
  }

  ghost predicate SeatsHold(race: Round, c: Crew) {
    SeatsOk(c, race.phase.Loading?, Started(race.phase))
  }

  lemma ConstructSeats(terrain: Terrain, s: State)
    requires Valid(s.world.track) && SeatsHold(s.race, s.crew)
    ensures SeatsHold(Construct(terrain, s).race, Construct(terrain, s).crew)
  {
    hide SeatsOk, BoardAll, Apply, Valid;
    if s.race.phase.Generating? { BoardAllSeats(s.crew); }
  }

  /** Nobody of the round is under way any more, so everybody sits. */
  lemma AllAboard(c: Crew)
    requires SeatsOk(c, true, true) && !Transferring(c)
    ensures SeatsOk(c, false, true)
  {
    forall p | p in c.players ensures Fit(c, p, false, true) {
      assert RacerOk(c, p) && Fit(c, p, true, true);
      if c.players[p].racer.Some? {
        var k := c.players[p].racer.value.kart;
        assert c.karts[k].participant ==> !OnTransfer(c, c.karts[k].pilot);
      }
    }
  }

  lemma LoadSeats(s: State)
    requires SeatsHold(s.race, s.crew)
    ensures SeatsHold(Load(s).race, Load(s).crew)
  {
    hide SeatsOk, Transferring;
    if s.race.phase.Loading? && !Transferring(s.crew) { AllAboard(s.crew); }
  }

  lemma JudgeSeats(s: State)
    requires Valid(s.world.track) && SeatsHold(s.race, s.crew)
    ensures SeatsHold(Judge(s).race, Judge(s).crew)
  {
    hide SeatsOk, Valid, TallyKarts, EveryoneToLobby, Scored, Reversed;
    if s.race.phase.Racing? {
      var t := TallyKarts(s.race, s.crew, s.crew.nextKart);
      TallyScored(s.race, s.crew, s.crew.nextKart);
      ScoredSeats(s.crew, t.crew, false, true);
      EveryoneToLobbySeats(t.crew, true);
    }
  }

  lemma DrivesSeats(s: State, crossing: set<nat>)
    requires Valid(s.world.track) && SeatsHold(s.race, s.crew)
    ensures SeatsHold(Drives(s, crossing).race, Drives(s, crossing).crew)
  {
    hide SeatsOk, Valid, Judge, Drive, Scored;
    var race := CountDown(s.race);
    DriveScored(race, s.crew, crossing);
    ScoredSeats(s.crew, Drive(race, s.crew, crossing), race.phase.Loading?, Started(race.phase));
    JudgeSeats(State(race, Drive(race, s.crew, crossing), s.world));
  }

  lemma BarrierHolds(race: Round, c: Crew, confirmed: set<nat>)
    requires SeatsHold(race, c)
    ensures SeatsHold(race.(tick := race.tick + 1), Barrier(c, c.order, confirmed))
  {
    hide SeatsOk, Barrier;
    BarrierSeats(c, c.order, confirmed, race.phase.Loading?, Started(race.phase));
  }

  lemma TickSeats(terrain: Terrain, s: State, confirmed: set<nat>, crossing: set<nat>)
    requires Valid(s.world.track) && SeatsHold(s.race, s.crew)
    ensures var t := TickRound(terrain, s, confirmed, crossing); SeatsHold(t.race, t.crew)
  {
    hide SeatsHold, Valid, Construct, Load, Drives, Barrier;
    BarrierHolds(s.race, s.crew, confirmed);
    var ticked := State(s.race.(tick := s.race.tick + 1), Barrier(s.crew, s.crew.order, confirmed), s.world);
    ConstructSeats(terrain, ticked);
    ConstructTrack(terrain, ticked);
    var built := Construct(terrain, ticked);
    LoadSeats(built);
    LoadTrack(built);
    DrivesSeats(Load(built), crossing);
  }

  lemma LaunchSeats(terrain: Terrain, s: State, p: nat, laps: nat, track: Track)
    requires Valid(s.world.track) && Valid(track) && SeatsHold(s.race, s.crew)
    ensures var t := LaunchRound(terrain, s, p, laps, track); SeatsHold(t.race, t.crew)
  {
    hide Valid, SeatsOk, Apply, Enlist, EveryoneToLobby, ChunkList;
    if Launches(s, p, laps) {
      var listed := Enlist(s.crew, s.crew.roster);
      EnlistSeats(s.crew, s.crew.roster);
      assert listed.order == s.crew.order by {
        assert GridOk(s.crew) by { GridOfSeats(s.crew, false, false); }
        EnlistGrid(s.crew, s.crew.roster);
      }
      EveryoneToLobbySeats(listed, false);
    }
  }

  lemma GridOfSeats(c: Crew, loading: bool, started: bool)
    requires SeatsOk(c, loading, started)
    ensures GridOk(c)
  {}

  lemma CancelSeats(c: Crew, p: nat, loading: bool, started: bool)
    requires SeatsOk(c, loading, started)
    ensures SeatsOk(CancelTeleport(c, p), loading, started)
  {
    if p in c.players && c.players[p].teleport.Some? {
      EndTeleportLocal(c, p, Cancelled);
      EndTeleportFit(c, p, Cancelled, loading, started);
      hide EndTeleport;
      LocalSeats(c, EndTeleport(c, p, Cancelled), p, loading, started);
    }
  }

  /** No ready event for a pilot of a round that has started, no disconnect of a player
      that never became ready and has a kart in the round. */
  ghost predicate Harmless(race: Round, c: Crew, e: Event) {
    match e
    case Ready(p) => !(Started(race.phase) && Enlisted(c, p))
    case Disconnect(p) => p in c.players ==> c.players[p].ready || !Enlisted(c, p)
    case _ => true
  }

  /** The barrier in the phase the round is in. */
  ghost predicate Stands(race: Round, c: Crew) {
    Manned(c, race.phase.Loading?, Started(race.phase))
  }

  lemma CrewStepSeats(race: Round, c: Crew, e: Event)
    requires SeatsHold(race, c) && ValidEvent(c, e)
    ensures e.Connect? ==> SeatsHold(race, Pilots.Connect(c))
    ensures e.Ready? ==> GridOk(BecomeReady(c, e.p)) && (SeatsHold(race, BecomeReady(c, e.p)) <==> Harmless(race, c, e))
    ensures e.Disconnect? ==> GridOk(Pilots.Disconnect(c, e.p)) && (SeatsHold(race, Pilots.Disconnect(c, e.p)) <==> Harmless(race, c, e))
    ensures e.Join? ==> SeatsHold(race, JoinGrid(c, e.p))
    ensures e.Leave? ==> SeatsHold(race, LeaveRace(c, e.p))
    ensures e.Rescue? ==> SeatsHold(race, RescueKart(race, c, e.p))
    ensures e.Cancel? ==> SeatsHold(race, CancelTeleport(c, e.p))
  {
    var (loading, started) := (race.phase.Loading?, Started(race.phase));
    GridOfSeats(c, loading, started);
    hide SeatsOk, GridOk, Fly, BecomeReady, JoinGrid, LeaveGrid, SendToLobby, Despawn, Pilots.Connect, CancelTeleport, RescueKart, Scored,
         Enlisted, Pilots.Disconnect;
    match e
    case Connect => ConnectSeats(c, loading, started);
    case Ready(p) =>
      BecomeReadyGrid(c, p);
      BecomeReadySeats(c, p, loading, started);
    case Disconnect(p) =>
      DisconnectGrid(c, p);
      DisconnectSeats(c, p, loading, started);
    case Join(p) => JoinGridSeats(c, p, loading, started);
    case Leave(p) => LeaveRaceSeats(c, p, loading, started);
    case Rescue(p) =>
      RescueScored(race, c, p);
      ScoredSeats(c, RescueKart(race, c, p), loading, started);
    case Cancel(p) => CancelSeats(c, p, loading, started);
    case _ =>
  }

  lemma StepHolds(terrain: Terrain, s: State, e: Event)
    requires Valid(s.world.track) && ValidEvent(s.crew, e) && SeatsHold(s.race, s.crew)
    ensures var t := Step(terrain, s, e); GridOk(t.crew) && (SeatsHold(t.race, t.crew) <==> Harmless(s.race, s.crew, e))
  {
    CrewStepSeats(s.race, s.crew, e);
    var t := Step(terrain, s, e);
    if e.Tick? { TickSeats(terrain, s, e.confirmed, e.crossing); }
    if e.Launch? { LaunchSeats(terrain, s, e.p, e.laps, e.track); }
    assert SeatsHold(t.race, t.crew) ==> GridOk(t.crew);
    hide SeatsOk, GridOk, Valid, TickRound, LaunchRound, Apply, Enlisted, BecomeReady, JoinGrid, LeaveRace, RescueKart, CancelTeleport,
         Pilots.Connect, Pilots.Disconnect;
  }

  /** Any one event keeps the barrier if and only if it is harmless. */
  lemma StepSeats(terrain: Terrain, s: State, e: Event)
    requires Valid(s.world.track) && ValidEvent(s.crew, e) && GridOk(s.crew) && Stands(s.race, s.crew)
    ensures var t := Step(terrain, s, e); GridOk(t.crew) && (Stands(t.race, t.crew) <==> Harmless(s.race, s.crew, e))
  {
    SeatsAreManned(s.crew, s.race.phase.Loading?, Started(s.race.phase));
    StepHolds(terrain, s, e);
    var t := Step(terrain, s, e);
    SeatsAreManned(t.crew, t.race.phase.Loading?, Started(t.race.phase));
    hide SeatsOk, GridOk, Manned, Step, Valid, Enlisted;
  }

  ghost predicate StandsUpTo(run: seq<State>, k: nat)
    requires k < |run|
  {
    forall j :: 0 <= j <= k ==> Stands(run[j].race, run[j].crew)
  }

  ghost predicate HarmlessUpTo(run: seq<State>, events: seq<Event>, k: nat)
    requires |run| == |events| + 1 && k < |run|
  {
    forall j :: 0 <= j < k ==> Harmless(run[j].race, run[j].crew, events[j])
  }

  /** Over any run the barrier has stood in every state so far if and only if every event
      so far was harmless. */
  lemma {:induction false} SeatsAlways(terrain: Terrain, run: seq<State>, events: seq<Event>, k: nat)
    requires Run(terrain, run, events) && k < |run|
    ensures StandsUpTo(run, k) <==> HarmlessUpTo(run, events, k)
    ensures HarmlessUpTo(run, events, k) ==> GridOk(run[k].crew)
  {
    hide Stands, Harmless, Step, GridOk, Valid;
    if k == 0 {
      InitialSeats(run[0]);
    } else {
      SeatsAlways(terrain, run, events, k - 1);
      assert StepTo(terrain, run[k - 1], events[k - 1], run[k]);
      if StandsUpTo(run, k - 1) { StepSeats(terrain, run[k - 1], events[k - 1]); }
      assert StandsUpTo(run, k) <==> StandsUpTo(run, k - 1) && Stands(run[k].race, run[k].crew);
      assert HarmlessUpTo(run, events, k) <==> HarmlessUpTo(run, events, k - 1) && Harmless(run[k - 1].race, run[k - 1].crew, events[k - 1]);
    }
  }

  lemma InitialSeats(s: State)
    requires Initial(s)
    ensures Stands(s.race, s.crew) && GridOk(s.crew)
  {}

  /** In every state reached by harmless events: a kart of the round has a pilot that is
      connected; boarding exists only in Loading and only for karts of the round; from
      Countdown on each of them has its pilot, and nobody else, in the seat; a kart is visible
      exactly when its pilot is boarding it or sits in it; and a kart without a pilot is
      hidden and empty. */
  lemma BoardingBarrier(terrain: Terrain, run: seq<State>, events: seq<Event>, k: nat, n: nat)
    requires Run(terrain, run, events) && k < |run| && HarmlessUpTo(run, events, k) && n in run[k].crew.karts
    ensures var (race, c) := (run[k].race, run[k].crew);
            var (kart, p) := (c.karts[n], c.karts[n].pilot);
      && (forall q :: q in c.players && IsBoarding(c.players[q]) ==> race.phase.Loading? && Enlisted(c, q))
      && (kart.participant ==> p in c.players && Enlisted(c, p))
      && (p in c.players ==>
           && (!kart.hidden <==> IsBoarding(c.players[p]) || kart.seats == [p])
           && (kart.participant && (race.phase.Countdown? || race.phase.Racing?) ==> Seated(p, c.players[p], kart))
           && (kart.participant && race.phase.Loading? ==> Seated(p, c.players[p], kart) || IsBoarding(c.players[p])))
      && (p !in c.players ==> kart.hidden && kart.seats == [])
  {
    SeatsAlways(terrain, run, events, k);
    var c := run[k].crew;
    assert Stands(run[k].race, c);
    if c.karts[n].pilot in c.players { assert RacerOk(c, c.karts[n].pilot); }
    hide HarmlessUpTo, Run, StandsUpTo, TablesOk;
  }
}
