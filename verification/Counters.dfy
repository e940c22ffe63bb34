/** The karts of a round over the steps of the round machine: which are on the course, and
    what each step does to their counters, penalties and racers. */
module Counters {
  import opened Options
  import opened TrackIndex
  import opened Arena
  import opened Pilots
  import opened Seats
  import opened Race
  import opened RaceSeats
  import opened RaceLiveness
  import opened RaceScores

  /** A kart of the round whose pilot is connected. */
  predicate Rolling(c: Crew, k: nat) {
    k in c.karts && c.karts[k].participant && c.karts[k].pilot in c.players
  }

  predicate OnCourse(s: State, k: nat) {
    Started(s.race.phase) && Rolling(s.crew, k)
  }

  predicate IsRescued(s: State, p: nat, k: nat) {
    s.race.phase.Racing? && KartOf(s.crew, p) == Some(k) && s.crew.karts[k].Racing()
  }

  // ---- what the round does to the counters ----------------------------------------------

  /** Every kart rolling in d was rolling in c, with the same counter and the same racer. */
  ghost predicate Rolled(c: Crew, d: Crew) {
    forall k {:trigger Rolling(c, k)} {:trigger Rolling(d, k)} :: Rolling(d, k) ==> Rolling(c, k) && SameStand(c, d, k)
  }

  predicate SameCounter(a: Kart, b: Kart) {
    b.pilot == a.pilot && b.nextGate == a.nextGate && b.finished == a.finished && b.penalty == a.penalty
  }

  predicate SameStand(c: Crew, d: Crew, k: nat)
    requires Rolling(c, k) && Rolling(d, k)
  {
    SameCounter(c.karts[k], d.karts[k]) && RacerOf(d, k) == RacerOf(c, k)
  }

  function RacerOf(c: Crew, k: nat): Option<Racer>
    requires Rolling(c, k)
  {
    c.players[c.karts[k].pilot].racer
  }

  lemma RolledChain(c: Crew, d: Crew, e: Crew)
    requires Rolled(c, d) && Rolled(d, e)
    ensures Rolled(c, e)
  {
    hide Rolling;
  }

  lemma FlyRolled(c: Crew, p: nat)
    ensures Rolled(c, Fly(c, p)) && Rolled(c, SendToLobby(c, p))
  {
    hide SeatOf, Without;
  }

  lemma PartsRolled(c: Crew, p: nat)
    requires p in c.players
    ensures Rolled(c, Withdraw(c, p)) && Rolled(c, TakeSeat(c, p)) && Rolled(c, Release(c, p)) && Rolled(c, Unmarked(c, p))
    ensures Withdraw(c, p).players == c.players && p in Unmarked(c, p).players && p in Fly(c, p).players
  {
    hide SeatOf, Without;
  }

  lemma EndTeleportRolled(c: Crew, p: nat, outcome: Outcome)
    requires p in c.players
    ensures Rolled(c, EndTeleport(c, p, outcome))
  {
    if c.players[p].transfer.Some? {
      var done := Unmarked(c, p);
      PartsRolled(c, p);
      PartsRolled(done, p);
      var out := Withdraw(done, p);
      PartsRolled(out, p);
      PartsRolled(Fly(out, p), p);
      FlyRolled(out, p);
      EndTeleportIs(c, p, outcome);
      hide *;
      EndedRolled(c, p, outcome, done, out);
    } else {
      hide SeatOf;
    }
  }

  lemma EndedRolled(c: Crew, p: nat, outcome: Outcome, done: Crew, out: Crew)
    requires p in c.players && p in done.players && p in out.players && p in Fly(out, p).players
    requires c.players[p].transfer.Some? && Rolled(c, done) && Rolled(done, out)
    requires Rolled(done, Release(done, p)) && Rolled(done, TakeSeat(done, p)) && Rolled(out, SendToLobby(out, p))
    requires Rolled(out, Fly(out, p)) && Rolled(Fly(out, p), Release(Fly(out, p), p))
    ensures Rolled(c, if c.players[p].transfer.value.ToLobby? then Release(done, p)
                      else match outcome
                           case Confirmed => TakeSeat(done, p)
                           case TimedOut => SendToLobby(out, p)
                           case Cancelled => Release(Fly(out, p), p))
  {
    hide *;
    RolledChain(c, done, Release(done, p));
    RolledChain(c, done, TakeSeat(done, p));
    RolledChain(c, done, out);
    RolledChain(c, out, SendToLobby(out, p));
    RolledChain(c, out, Fly(out, p));
    RolledChain(c, Fly(out, p), Release(Fly(out, p), p));
  }

  lemma {:induction false} BarrierRolled(c: Crew, players: seq<nat>, confirmed: set<nat>)
    ensures Rolled(c, Barrier(c, players, confirmed))
  {
    if players != [] {
      var p := players[|players| - 1];
      var before := Barrier(c, players[..|players| - 1], confirmed);
      BarrierRolled(c, players[..|players| - 1], confirmed);
      AdvanceRolled(before, p, confirmed);
      hide AdvanceTeleport, Rolled;
      RolledChain(c, before, Barrier(c, players, confirmed));
    }
  }

  lemma AdvanceRolled(c: Crew, p: nat, confirmed: set<nat>)
    ensures Rolled(c, AdvanceTeleport(c, p, confirmed))
  {
    if p in c.players {
      EndTeleportRolled(c, p, TimedOut);
      EndTeleportRolled(c, p, Confirmed);
    }
    hide EndTeleport;
  }

  lemma {:induction false} EveryoneRolled(c: Crew, players: seq<nat>)
    ensures Rolled(c, EveryoneToLobby(c, players))
  {
    if players != [] {
      var before := EveryoneToLobby(c, players[..|players| - 1]);
      EveryoneRolled(c, players[..|players| - 1]);
      FlyRolled(before, players[|players| - 1]);
      hide SendToLobby, Rolled;
      RolledChain(c, before, EveryoneToLobby(c, players));
    }
  }

  lemma GridRolled(c: Crew, p: nat)
    requires GridOk(c)
    ensures Rolled(c, JoinGrid(c, p)) && Rolled(c, LeaveGrid(c, p)) && Rolled(c, Despawn(c, p))
  {
    hide Without, RemoveFirst, Distinct;
  }

  lemma ConnectRolled(c: Crew)
    requires GridOk(c)
    ensures Rolled(c, Pilots.Connect(c))
  {
    hide Distinct;
  }

  lemma ReadyRolled(c: Crew, p: nat)
    requires GridOk(c) && p in c.players
    ensures Rolled(c, BecomeReady(c, p))
  {
    var marked := WithPlayer(c, p, c.players[p].(ready := true));
    FlownGrid(c, p);
    hide Fly, JoinGrid, GridOk;
    assert Rolled(c, marked);
    FlyRolled(marked, p);
    GridRolled(Fly(marked, p), p);
    hide Rolled;
    RolledChain(c, marked, Fly(marked, p));
    RolledChain(c, Fly(marked, p), BecomeReady(c, p));
  }

  lemma FlownGrid(c: Crew, p: nat)
    requires GridOk(c) && p in c.players
    ensures GridOk(Fly(WithPlayer(c, p, c.players[p].(ready := true)), p))
  {
    assert RacerOk(c, p);
    var marked := WithPlayer(c, p, c.players[p].(ready := true));
    LocalGrid(c, marked, p);
    FlyLocal(marked, p);
    LocalGrid(marked, Fly(marked, p), p);
  }

  lemma DisconnectRolled(c: Crew, p: nat)
    requires GridOk(c) && p in c.players
    ensures Rolled(c, Pilots.Disconnect(c, p))
  {
    hide Rolled, LeaveGrid, Despawn;
    LeaveGridGrid(c, p);
    GridRolled(c, p);
    GridRolled(LeaveGrid(c, p), p);
    RolledChain(c, LeaveGrid(c, p), Despawn(LeaveGrid(c, p), p));
  }

  /** A rescue adds the penalty to the player's own racing kart, and does nothing else. */
  lemma RescueRolled(s: State, p: nat, k: nat)
    requires Rolling(RescueKart(s.race, s.crew, p), k)
    ensures var d := RescueKart(s.race, s.crew, p);
            && Rolling(s.crew, k) && RacerOf(d, k) == RacerOf(s.crew, k)
            && d.karts[k].penalty == s.crew.karts[k].penalty + (if IsRescued(s, p, k) then RESET_PENALTY else 0)
            && SameCounter(s.crew.karts[k], d.karts[k].(penalty := s.crew.karts[k].penalty))
  {}

  lemma EventRolled(race: Round, c: Crew, e: Event)
    requires GridOk(c) && ValidEvent(c, e) && !e.Rescue?
    ensures Rolled(c, AfterEvent(race, c, e))
  {
    match e
    case Connect => ConnectRolled(c);
    case Ready(p) => ReadyRolled(c, p);
    case Disconnect(p) => DisconnectRolled(c, p);
    case Join(p) => GridRolled(c, p);
    case Leave(p) =>
      hide LeaveGrid, SendToLobby, Rolled;
      GridRolled(c, p);
      FlyRolled(LeaveGrid(c, p), p);
      RolledChain(c, LeaveGrid(c, p), SendToLobby(LeaveGrid(c, p), p));
    case Cancel(p) => EndTeleportRolled(c, p, Cancelled);
    case _ =>
  }

  // ---- onto the grid --------------------------------------------------------------------

  ghost predicate Placed(c: Crew, players: seq<nat>) {
    forall k {:trigger Rolling(c, k)} :: Rolling(c, k) && c.karts[k].pilot in players ==> AtStart(c, k)
  }

  /** On the grid: no gate, no penalty, no time, no lap. */
  predicate AtStart(c: Crew, k: nat)
    requires Rolling(c, k)
  {
    && c.karts[k] == c.karts[k].(nextGate := 1, penalty := 0, finished := None)
    && RacerOf(c, k).Some? && var racer := RacerOf(c, k).value; racer == racer.(gate := 1, lapStart := 0, bestLap := None)
  }

  lemma BoardOnePlaces(c: Crew, p: nat, players: seq<nat>)
    requires GridOk(c) && Placed(c, players)
    ensures Placed(BoardOne(c, p), players + [p])
  {
    var d := BoardOne(c, p);
    forall k | Rolling(d, k) && d.karts[k].pilot in players + [p] ensures AtStart(d, k) {
      assert Rolling(c, k);
      if d.karts[k].pilot == p {
        assert RacerOk(c, p);
        assert KartOf(c, p) == Some(k);
      }
    }
  }

  lemma {:induction false} BoardAllPlaces(c: Crew, players: seq<nat>)
    requires GridOk(c)
    ensures GridOk(BoardAll(c, players)) && Placed(BoardAll(c, players), players)
    ensures BoardAll(c, players).roster == c.roster
  {
    if players != [] {
      var (front, p) := (players[..|players| - 1], players[|players| - 1]);
      BoardAllPlaces(c, front);
      BoardOneGrid(BoardAll(c, front), p);
      BoardOnePlaces(BoardAll(c, front), p, front);
      assert front + [p] == players;
    }
    hide GridOk, Placed;
  }

  /** Construction puts every kart of the round on the grid when it ends, and touches no
      kart of a round that is under way. */
  lemma ConstructPlaces(terrain: Terrain, s: State, k: nat)
    requires Valid(s.world.track) && GridOk(s.crew)
    ensures var t := Construct(terrain, s);
            if Started(s.race.phase) then t == s
            else OnCourse(t, k) ==> t.race.phase.Loading? && AtStart(t.crew, k)
  {
    BoardAllPlaces(s.crew, s.crew.roster);
    var d := BoardAll(s.crew, s.crew.roster);
    assert Rolling(d, k) ==> d.karts[k].pilot in d.roster;
    hide Valid, Generate, BoardAll;
  }

  // ---- a tick ---------------------------------------------------------------------------

  lemma {:induction false} TallyCounters(race: Round, c: Crew, n: nat, k: nat)
    requires k in c.karts
    ensures var d := TallyKarts(race, c, n).crew;
            k in d.karts && d.karts[k] == c.karts[k].(finished := d.karts[k].finished)
  {
    if n > 0 {
      TallyCounters(race, c, n - 1, k);
      hide PassGate, SortScores;
    }
  }

  lemma JudgeCounters(s: State, k: nat)
    requires Valid(s.world.track) && Rolling(Judge(s).crew, k)
    ensures Rolling(s.crew, k)
    ensures var (a, b) := (s.crew.karts[k], Judge(s).crew.karts[k]); SameCounter(a, b.(finished := a.finished))
  {
    var t := TallyKarts(s.race, s.crew, s.crew.nextKart);
    TallyScored(s.race, s.crew, s.crew.nextKart);
    EveryoneRolled(t.crew, t.crew.order);
    if k in s.crew.karts { TallyCounters(s.race, s.crew, s.crew.nextKart, k); }
    hide Valid, ChunkList, TallyKarts, EveryoneToLobby;
  }

  /** The state of a tick between the drive and the scoring. */
  ghost function Driving(terrain: Terrain, s: State, confirmed: set<nat>, crossing: set<nat>): (t: State)
    requires Valid(s.world.track)
    ensures Valid(t.world.track)
  {
    ConstructTrack(terrain, Ticked(s, confirmed));
    var u := Load(Construct(terrain, Ticked(s, confirmed)));
    var race := CountDown(u.race);
    State(race, Drive(race, u.crew, crossing), u.world)
  }

  lemma TickIsJudged(terrain: Terrain, s: State, confirmed: set<nat>, crossing: set<nat>)
    requires Valid(s.world.track)
    ensures TickRound(terrain, s, confirmed, crossing) == Judge(Driving(terrain, s, confirmed, crossing))
  {
    hide Valid, Construct, Drive, Judge, Barrier;
  }

  lemma StillThere(c: Crew, k: nat)
    ensures Rolling(c, k) ==> k in c.karts
  {}

  lemma LaunchOrNot(terrain: Terrain, s: State, e: Event)
    requires Valid(s.world.track) && ValidEvent(s.crew, e) && e.Launch?
    ensures var t := Step(terrain, s, e); t == s || t.race.phase.Generating?
  {
    hide Valid, Enlist, EveryoneToLobby, ChunkList;
  }

  lemma DrivingKeepsResults(terrain: Terrain, s: State, confirmed: set<nat>, crossing: set<nat>)
    requires Valid(s.world.track)
    ensures var t := Driving(terrain, s, confirmed, crossing);
            && t.race.results == s.race.results && t.race.laps == s.race.laps
            && (t.race.phase.Racing? ==> Started(s.race.phase))
  {
    hide Valid, Barrier, BoardAll, Apply, Drive, Transferring;
  }

  lemma FinishersRoll(race: Round, c: Crew, k: nat)
    requires Finishes(race, c, k)
    ensures Rolling(c, k)
  {}

  lemma TickStep(terrain: Terrain, s: State, e: Event)
    requires Valid(s.world.track) && ValidEvent(s.crew, e) && e.Tick?
    ensures Step(terrain, s, e) == TickRound(terrain, s, e.confirmed, e.crossing)
  {
    hide Valid, TickRound;
  }

  lemma {:induction false} FinisherOf(race: Round, c: Crew, n: nat, x: Score) returns (k: nat)
    requires x in Finishers(race, c, n)
    ensures Finishes(race, c, k) && x == TimeOf(race, c, k)
  {
    if n > 0 && Finishes(race, c, n - 1) && x == TimeOf(race, c, n - 1) {
      k := n - 1;
    } else {
      k := FinisherOf(race, c, n - 1, x);
    }
  }

  lemma NewScores(s: State, x: Score) returns (k: nat)
    requires Valid(s.world.track) && Sorted(s.race.results)
    requires x in Judge(s).race.results && x !in s.race.results
    ensures s.race.phase.Racing? && Finishes(s.race, s.crew, k) && x == TimeOf(s.race, s.crew, k)
  {
    hide Valid, SortScores, TallyKarts, EveryoneToLobby, ChunkList, Finishes;
    assert s.race.phase.Racing?;
    RoundEnds(s);
    var all := s.race.results + Finishers(s.race, s.crew, s.crew.nextKart);
    SortIsStable(all, 0);
    assert x in multiset(all);
    k := FinisherOf(s.race, s.crew, s.crew.nextKart, x);
  }

  lemma RescueIs(s: State, p: nat)
    ensures AfterEvent(s.race, s.crew, Rescue(p)) == RescueKart(s.race, s.crew, p)
  {
    hide RescueKart;
  }

  lemma OtherResults(terrain: Terrain, s: State, e: Event)
    requires Valid(s.world.track) && ValidEvent(s.crew, e) && !e.Tick?
    ensures forall x :: x in Step(terrain, s, e).race.results ==> x in s.race.results
  {
    hide Valid, Enlist, EveryoneToLobby, ChunkList, Apply, BecomeReady, JoinGrid, LeaveRace, RescueKart,
         CancelTeleport, Pilots.Connect, Pilots.Disconnect;
  }
}
