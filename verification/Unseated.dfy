/** Runs in which the boarding barrier fails: a client that reports itself ready again during
    a round, one that joins early and becomes ready during a round, and one that joins early
    and disconnects. They exist for every landscape and every circuit. */
module Unseated {
  import opened Options
  import opened TrackIndex
  import opened Arena
  import opened Pilots
  import opened Seats
  import opened Race
  import opened RaceSeats

  ghost predicate Path(terrain: Terrain, run: seq<State>, events: seq<Event>) {
    |run| == |events| + 1 && forall k :: 0 <= k < |events| ==> StepTo(terrain, run[k], events[k], run[k + 1])
  }

  /** A path with one more step in front. */
  lemma Prepend(terrain: Terrain, s: State, e: Event, run: seq<State>, events: seq<Event>) returns (r: seq<State>, es: seq<Event>)
    requires Path(terrain, run, events) && StepTo(terrain, s, e, run[0])
    ensures Path(terrain, r, es) && |r| == |es| + 1 && |es| == |events| + 1
    ensures r[0] == s && r[|r| - 1] == run[|run| - 1] && es[0] == e
    ensures forall k :: 0 < k < |es| ==> es[k] == events[k - 1]
  {
    hide StepTo;
    r, es := [s] + run, [e] + events;
    forall k | 0 <= k < |events| + 1 ensures StepTo(terrain, r[k], es[k], r[k + 1]) {
      if k > 0 { assert StepTo(terrain, run[k - 1], events[k - 1], run[k]); }
    }
  }

  // ---- one player, one kart --------------------------------------------------------------

  function Solo(player: Player, kart: Kart): Crew {
    Crew(map[0 := player], [0], [0], map[0 := kart], 1, 1)
  }

  const STARTER := Racer(1, 0, 0, None)
  const IDLE_KART := Kart(0, true, None, 1, 0, true, [])

  /** The pilot of the round waits, perhaps still on the way to the lobby. */
  ghost predicate Waiting(c: Crew) {
    && 0 in c.players && c == Solo(c.players[0], IDLE_KART) && c.players[0].racer == Some(STARTER)
    && ((c.players[0].transfer.None? && c.players[0].teleport.None?)
        || (c.players[0].transfer == Some(ToLobby) && c.players[0].teleport == Some(0)))
  }

  ghost predicate OnBoard(c: Crew) {
    && 0 in c.players && c == Solo(c.players[0], IDLE_KART.(hidden := false)) && c.players[0].racer == Some(STARTER)
    && c.players[0].transfer == Some(Boarding) && c.players[0].teleport == Some(0)
  }

  ghost predicate InSeat(c: Crew) {
    && 0 in c.players && c == Solo(c.players[0], IDLE_KART.(hidden := false, seats := [0]))
    && c.players[0].racer == Some(STARTER) && c.players[0].transfer.None? && c.players[0].teleport.None?
  }

  /** A pilot of the round is not in its seat although the lights are counting. */
  ghost predicate Broken(s: State) {
    && s.race.phase.Countdown? && 0 in s.crew.players && Enlisted(s.crew, 0)
    && var kart := s.crew.karts[KartOf(s.crew, 0).value]; kart.pilot == 0 && !Seated(0, s.crew.players[0], kart)
  }

  lemma BrokenDoesNotStand(s: State)
    requires Broken(s)
    ensures !Stands(s.race, s.crew)
  {}

  lemma OneBarrier(c: Crew)
    ensures Barrier(c, [0], {0}) == AdvanceTeleport(c, 0, {0})
  {
    assert [0][..0] == [];
    assert Barrier(c, [], {0}) == c;
    hide AdvanceTeleport;
  }

  lemma WaitingBarrier(c: Crew)
    requires Waiting(c)
    ensures var d := Barrier(c, c.order, {0});
            Waiting(d) && d.players[0].transfer.None? && d.players[0].teleport.None?
  {
    OneBarrier(c);
  }

  lemma WaitingBoards(c: Crew)
    requires Waiting(c)
    ensures OnBoard(BoardAll(c, c.roster))
  {
    OneBoards(c);
    hide BoardAll;
  }

  lemma OneBoards(c: Crew)
    ensures BoardAll(c, [0]) == BoardOne(c, 0)
  {
    assert [0][..0] == [];
    assert BoardAll(c, []) == c;
    hide BoardOne;
  }

  lemma BoardingBarrierEnds(c: Crew)
    requires OnBoard(c)
    ensures InSeat(Barrier(c, c.order, {0}))
  {
    OneBarrier(c);
    assert SeatOf(c.karts, 0, 0).None?;
    assert SeatOf(c.karts, 0, 1) == Some(0);
    EndTeleportIs(c, 0, Confirmed);
    var done := Unmarked(c, 0);
    var d := TakeSeat(done, 0);
    assert Barrier(c, c.order, {0}) == d;
    assert c.karts[0].seats + [0] == [0];
    assert d.karts == map[0 := IDLE_KART.(hidden := false, seats := [0])];
    assert d.players == map[0 := d.players[0]];
  }

  lemma ReadyUnseats(c: Crew)
    requires InSeat(c)
    ensures var d := BecomeReady(c, 0);
            0 in d.players && Enlisted(d, 0) && d.karts[KartOf(d, 0).value].seats == [] && d.karts[KartOf(d, 0).value].pilot == 0
  {
    assert SeatOf(c.karts, 0, 0).None?;
    assert SeatOf(c.karts, 0, 1) == Some(0);
    assert Without([0], 0) == [] by { assert [0][1..] == []; }
  }

  // ---- the ticks of a round ------------------------------------------------------------------

  const GO := Tick({0}, {})

  /** While it is built, nothing happens to the pilot. */
  lemma BuildTick(terrain: Terrain, s: State)
    requires Valid(s.world.track) && s.race.phase.Generating? && Waiting(s.crew)
    ensures var t := TickRound(terrain, s, {0}, {});
      && t.world.track == s.world.track
      && (if t.race.phase.Generating? then
            Waiting(t.crew) && s.race.pending != []
            && 2 * |t.race.pending| + s.race.tick % 2 < 2 * |s.race.pending| + t.race.tick % 2
          else t.race.phase.Loading? && OnBoard(t.crew))
  {
    hide Valid, Construct, Load, Drives, Waiting, OnBoard, Barrier, BoardAll, Transferring;
    WaitingBarrier(s.crew);
    var waiting := Barrier(s.crew, s.crew.order, {0});
    WaitingBoards(waiting);
    var ticked := State(s.race.(tick := s.race.tick + 1), waiting, s.world);
    ConstructTrack(terrain, ticked);
    BuildPhase(terrain, ticked);
    var built := Construct(terrain, ticked);
    if built.race.phase.Loading? { BoardingTransfers(built.crew); }
    NoStart(built);
    NoDriving(built, {});
  }

  lemma BoardingTransfers(c: Crew)
    requires OnBoard(c)
    ensures Transferring(c)
  {
    assert OnTransfer(c, c.karts[0].pilot);
  }

  lemma NoStart(s: State)
    requires !s.race.phase.Loading? || Transferring(s.crew)
    ensures Load(s) == s
  {}

  lemma NoDriving(s: State, crossing: set<nat>)
    requires Valid(s.world.track) && !s.race.phase.Countdown? && !s.race.phase.Racing?
    ensures Drives(s, crossing) == s
  {
    hide Valid;
  }

  lemma BuildPhase(terrain: Terrain, s: State)
    requires Valid(s.world.track) && s.race.phase.Generating?
    ensures var t := Construct(terrain, s);
      && t.race.tick == s.race.tick
      && if t.race.phase.Generating? then
           t.crew == s.crew && s.race.pending != []
           && |t.race.pending| == |s.race.pending| - (if s.race.tick % 2 == 0 then 1 else 0)
         else t.race.phase.Loading? && t.crew == BoardAll(s.crew, s.crew.roster)
  {
    hide Valid, Generate, BoardAll;
  }

  lemma SeatTick(terrain: Terrain, s: State)
    requires Valid(s.world.track) && s.race.phase.Loading? && OnBoard(s.crew)
    ensures var t := TickRound(terrain, s, {0}, {});
            t.race.phase.Countdown? && InSeat(t.crew) && t.world.track == s.world.track
  {
    hide Valid, Barrier, InSeat, OnBoard, Transferring, Construct, Drives;
    BoardingBarrierEnds(s.crew);
    var seated := Barrier(s.crew, s.crew.order, {0});
    SeatedStays(seated);
    var ticked := State(s.race.(tick := s.race.tick + 1), seated, s.world);
    NoBuilding(terrain, ticked);
    NoLights(Load(ticked), {});
  }

  lemma NoBuilding(terrain: Terrain, s: State)
    requires Valid(s.world.track) && s.race.phase.Loading?
    ensures Construct(terrain, s) == s
  {}

  lemma NoLights(s: State, crossing: set<nat>)
    requires Valid(s.world.track) && s.race.phase.Countdown? && s.race.tick < s.race.start
    ensures Drives(s, crossing) == s
  {
    hide Valid;
  }

  lemma SeatedStays(c: Crew)
    requires InSeat(c)
    ensures !Transferring(c)
  {}

  lemma GoStep(terrain: Terrain, s: State)
    requires Valid(s.world.track)
    ensures StepTo(terrain, s, GO, TickRound(terrain, s, {0}, {}))
  {
    hide TickRound, Valid;
  }

  /** From the launch on: ticks until the pilot sits, then a ready event. */
  lemma {:induction false} Ride(terrain: Terrain, s: State) returns (run: seq<State>, events: seq<Event>)
    requires Valid(s.world.track) && s.race.phase.Generating? && Waiting(s.crew)
    ensures Path(terrain, run, events) && |run| == |events| + 1 && run[0] == s && |events| >= 1
    ensures events[|events| - 1] == Ready(0) && forall k :: 0 <= k < |events| - 1 ==> events[k] == GO
    ensures Broken(run[|run| - 1])
    decreases 2 * |s.race.pending| + 1 - s.race.tick % 2
  {
    hide TickRound, Valid, Waiting, OnBoard, StepTo, Broken, Path;
    BuildTick(terrain, s);
    var t := TickRound(terrain, s, {0}, {});
    GoStep(terrain, s);
    var rest, more;
    if t.race.phase.Generating? {
      rest, more := Ride(terrain, t);
    } else {
      rest, more := Unseat(terrain, t);
    }
    run, events := Prepend(terrain, s, GO, rest, more);
  }

  lemma NoStep(terrain: Terrain, s: State)
    ensures Path(terrain, [s], [])
  {}

  lemma UnseatStep(terrain: Terrain, s: State)
    requires Valid(s.world.track) && s.race.phase.Countdown? && InSeat(s.crew)
    ensures var t := s.(crew := BecomeReady(s.crew, 0)); StepTo(terrain, s, Ready(0), t) && Broken(t)
  {
    ReadyUnseats(s.crew);
    hide Valid, BecomeReady;
  }

  lemma Unseat(terrain: Terrain, s: State) returns (run: seq<State>, events: seq<Event>)
    requires Valid(s.world.track) && s.race.phase.Loading? && OnBoard(s.crew)
    ensures Path(terrain, run, events) && |run| == 3 && run[0] == s && |events| == 2 && events[0] == GO && events[1] == Ready(0)
    ensures Broken(run[2])
  {
    SeatTick(terrain, s);
    var t := TickRound(terrain, s, {0}, {});
    GoStep(terrain, s);
    var u := t.(crew := BecomeReady(t.crew, 0));
    UnseatStep(terrain, t);
    hide TickRound, Valid, BecomeReady, OnBoard, StepTo, InSeat, Path, Broken;
    NoStep(terrain, u);
    run, events := Prepend(terrain, t, Ready(0), [u], []);
    run, events := Prepend(terrain, s, GO, run, events);
  }

  // ---- the runs --------------------------------------------------------------------------------

  /** The first three events: a client connects, is ready or joins at once, and launches. */
  lemma Launched(terrain: Terrain, s: State, track: Track, early: bool) returns (run: seq<State>, events: seq<Event>)
    requires Initial(s) && Valid(track)
    ensures events == [Connect, if early then Join(0) else Ready(0), Launch(0, 1, track)]
    ensures Path(terrain, run, events) && run[0] == s
    ensures run[3].world.track == track && run[3].race.phase.Generating? && Waiting(run[3].crew)
    ensures run[3].crew.players[0].ready == !early
  {
    var e := if early then Join(0) else Ready(0);
    var s1 := Step(terrain, s, Connect);
    assert ValidEvent(s1.crew, e);
    var s2 := Step(terrain, s1, e);
    var player := Player(!early, !early, false, None, None, Some(STARTER));
    FirstCrew(s.crew, early);
    assert s2.crew == Solo(player, IDLE_KART.(participant := false));
    var launch := Launch(0, 1, track);
    EnlistSolo(player);
    LobbySolo(player);
    hide BecomeReady, JoinGrid, Enlist, EveryoneToLobby, Valid, ChunkList;
    var s3 := Step(terrain, s2, launch);
    run, events := [s, s1, s2, s3], [Connect, e, launch];
    assert StepTo(terrain, s, Connect, s1);
    assert StepTo(terrain, s1, e, s2);
    assert StepTo(terrain, s2, launch, s3);
  }

  lemma FirstCrew(c: Crew, early: bool)
    requires c == Crew(map[], [], [], map[], 0, 0)
    ensures var d := Pilots.Connect(c);
            (if early then JoinGrid(d, 0) else BecomeReady(d, 0))
            == Solo(Player(!early, !early, false, None, None, Some(STARTER)), IDLE_KART.(participant := false))
  {
    var d := Pilots.Connect(c);
    assert d.players == map[0 := Player(false, false, false, None, None, None)] && d.order == [0];
    assert SeatOf(d.karts, 0, 0).None?;
  }

  lemma EnlistSolo(player: Player)
    requires player.racer == Some(STARTER)
    ensures var c := Solo(player, IDLE_KART.(participant := false)); Enlist(c, c.roster) == Solo(player, IDLE_KART)
  {
    var c := Solo(player, IDLE_KART.(participant := false));
    assert [0][..0] == [];
    assert Enlist(c, []) == c;
    assert c.karts[0 := IDLE_KART] == map[0 := IDLE_KART];
  }

  lemma LobbySolo(player: Player)
    requires player.racer == Some(STARTER) && player.transfer.None? && player.teleport.None?
    ensures var d := EveryoneToLobby(Solo(player, IDLE_KART), [0]); Waiting(d) && d.players[0].ready == player.ready
  {
    var c := Solo(player, IDLE_KART);
    assert [0][..0] == [];
    assert EveryoneToLobby(c, []) == c;
    assert SeatOf(c.karts, 0, 0).None?;
    assert SeatOf(c.karts, 0, 1) == Some(0);
  }

  /** A client that reports itself ready a second time leaves its seat in the middle of a
      round, and so does one that joined before its first and only ready event. */
  lemma ReadyBreaksTheBarrier(terrain: Terrain, s: State, track: Track, early: bool) returns (run: seq<State>, events: seq<Event>)
    requires Initial(s) && Valid(track)
    ensures Run(terrain, run, events) && run[0] == s && |events| >= 4
    ensures events[0] == Connect && events[1] == (if early then Join(0) else Ready(0)) && events[2] == Launch(0, 1, track)
    ensures forall k :: 3 <= k < |events| - 1 ==> events[k] == GO
    ensures events[|events| - 1] == Ready(0) && Broken(run[|run| - 1]) && !Stands(run[|run| - 1].race, run[|run| - 1].crew)
  {
    var first, start := Launched(terrain, s, track, early);
    assert StepTo(terrain, first[0], start[0], first[1]);
    assert StepTo(terrain, first[1], start[1], first[2]);
    assert StepTo(terrain, first[2], start[2], first[3]);
    run, events := Ride(terrain, first[3]);
    hide Step, StepTo, Valid, Waiting, Broken, Stands, Initial, Path;
    run, events := Prepend(terrain, first[2], start[2], run, events);
    run, events := Prepend(terrain, first[1], start[1], run, events);
    run, events := Prepend(terrain, first[0], start[0], run, events);
    PathIsRun(terrain, run, events);
    BrokenDoesNotStand(run[|run| - 1]);
  }

  lemma PathIsRun(terrain: Terrain, run: seq<State>, events: seq<Event>)
    requires |run| > 0 && Initial(run[0]) && Path(terrain, run, events)
    ensures Run(terrain, run, events)
  {
    hide StepTo;
  }

  /** A client that joins before it is ready and disconnects leaves its kart in the round. */
  lemma KartWithoutPilot(terrain: Terrain, s: State, track: Track) returns (run: seq<State>, events: seq<Event>)
    requires Initial(s) && Valid(track)
    ensures Run(terrain, run, events) && events == [Connect, Join(0), Launch(0, 1, track), Disconnect(0)]
    ensures var c := run[4].crew; 0 in c.karts && c.karts[0].participant && c.karts[0].pilot == 0 && 0 !in c.players && 0 in c.roster
    ensures !Stands(run[4].race, run[4].crew)
  {
    var first, start := Launched(terrain, s, track, true);
    var gone := Disconnect(0);
    var t := Step(terrain, first[3], gone);
    hide Valid;
    run, events := first + [t], start + [gone];
    forall k | 0 <= k < |events| ensures StepTo(terrain, run[k], events[k], run[k + 1]) {
      if k < 3 { assert StepTo(terrain, first[k], start[k], first[k + 1]); }
    }
  }
}
