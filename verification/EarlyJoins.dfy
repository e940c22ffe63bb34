/** Players on the grid that never became ready, and clients that keep to the order of the
    protocol. */
module EarlyJoins {
  import opened TrackIndex
  import opened Arena
  import opened Pilots
  import opened Seats
  import opened Race
  import opened RaceSeats
  import opened RaceLiveness

  /** On the grid without having become ready. */
  predicate Early(c: Crew, p: nat) {
    p in c.players && p in c.roster && !c.players[p].ready
  }

  /** Nobody is early in d that was not in c. */
  ghost predicate NoneEarlier(c: Crew, d: Crew) {
    forall p {:trigger Early(c, p)} {:trigger Early(d, p)} :: Early(d, p) ==> Early(c, p)
  }

  lemma Chain(c: Crew, d: Crew, e: Crew)
    requires NoneEarlier(c, d) && NoneEarlier(d, e)
    ensures NoneEarlier(c, e)
  {
    hide Early;
  }

  // ---- the steps of the crew ---------------------------------------------------------------

  lemma SendEarly(c: Crew, p: nat)
    ensures NoneEarlier(c, Fly(c, p)) && NoneEarlier(c, SendToLobby(c, p))
  {
    hide SeatOf, Without;
  }

  lemma EndTeleportEarly(c: Crew, p: nat, outcome: Outcome)
    requires p in c.players
    ensures NoneEarlier(c, EndTeleport(c, p, outcome))
  {
    hide SeatOf, Without;
  }

  lemma AdvanceEarly(c: Crew, p: nat, confirmed: set<nat>)
    ensures NoneEarlier(c, AdvanceTeleport(c, p, confirmed))
  {
    if p in c.players {
      EndTeleportEarly(c, p, TimedOut);
      EndTeleportEarly(c, p, Confirmed);
    }
    hide EndTeleport;
  }

  lemma {:induction false} BarrierEarly(c: Crew, players: seq<nat>, confirmed: set<nat>)
    ensures NoneEarlier(c, Barrier(c, players, confirmed))
  {
    if players != [] {
      var before := Barrier(c, players[..|players| - 1], confirmed);
      BarrierEarly(c, players[..|players| - 1], confirmed);
      AdvanceEarly(before, players[|players| - 1], confirmed);
      hide AdvanceTeleport, NoneEarlier;
      Chain(c, before, Barrier(c, players, confirmed));
    }
  }

  lemma {:induction false} EveryoneEarly(c: Crew, players: seq<nat>)
    ensures NoneEarlier(c, EveryoneToLobby(c, players))
  {
    if players != [] {
      var before := EveryoneToLobby(c, players[..|players| - 1]);
      EveryoneEarly(c, players[..|players| - 1]);
      SendEarly(before, players[|players| - 1]);
      hide SendToLobby, NoneEarlier;
      Chain(c, before, EveryoneToLobby(c, players));
    }
  }

  lemma {:induction false} EnlistEarly(c: Crew, players: seq<nat>)
    ensures Enlist(c, players).players == c.players && Enlist(c, players).roster == c.roster
  {
    if players != [] {
      EnlistEarly(c, players[..|players| - 1]);
    }
  }

  lemma {:induction false} BoardAllEarly(c: Crew, players: seq<nat>)
    ensures NoneEarlier(c, BoardAll(c, players))
  {
    if players != [] {
      var before := BoardAll(c, players[..|players| - 1]);
      BoardAllEarly(c, players[..|players| - 1]);
      BoardOneEarly(before, players[|players| - 1]);
      hide BoardOne, NoneEarlier;
      Chain(c, before, BoardAll(c, players));
    }
  }

  lemma BoardOneEarly(c: Crew, p: nat)
    ensures NoneEarlier(c, BoardOne(c, p))
  {}

  lemma GridEarly(c: Crew, p: nat)
    ensures NoneEarlier(c, LeaveGrid(c, p)) && NoneEarlier(c, Despawn(c, p))
    ensures forall q {:trigger Early(JoinGrid(c, p), q)} :: q != p && Early(JoinGrid(c, p), q) ==> Early(c, q)
  {
    hide Without, RemoveFirst;
  }

  lemma ConnectEarly(c: Crew)
    requires GridOk(c)
    ensures NoneEarlier(c, Pilots.Connect(c))
  {
    hide Distinct;
  }

  /** A ready event makes its player ready, so nobody is early for it. */
  lemma ReadyEarly(c: Crew, p: nat)
    requires p in c.players
    ensures NoneEarlier(c, BecomeReady(c, p)) && !Early(BecomeReady(c, p), p)
  {
    hide SeatOf, Without;
  }

  lemma DisconnectEarly(c: Crew, p: nat)
    requires p in c.players
    ensures NoneEarlier(c, Pilots.Disconnect(c, p))
  {
    hide NoneEarlier, LeaveGrid, Despawn;
    GridEarly(c, p);
    GridEarly(LeaveGrid(c, p), p);
    Chain(c, LeaveGrid(c, p), Despawn(LeaveGrid(c, p), p));
  }

  lemma LeaveEarly(c: Crew, p: nat)
    ensures NoneEarlier(c, LeaveRace(c, p))
  {
    hide NoneEarlier, LeaveGrid, SendToLobby;
    GridEarly(c, p);
    SendEarly(LeaveGrid(c, p), p);
    Chain(c, LeaveGrid(c, p), SendToLobby(LeaveGrid(c, p), p));
    SameEarly(c);
  }

  lemma SameEarly(c: Crew)
    ensures NoneEarlier(c, c)
  {}

  lemma ScoredEarly(c: Crew, d: Crew)
    requires Scored(c, d)
    ensures NoneEarlier(c, d)
  {}

  // ---- the steps of the round --------------------------------------------------------------

  lemma JudgeEarly(s: State)
    requires Valid(s.world.track)
    ensures NoneEarlier(s.crew, Judge(s).crew)
  {
    var t := TallyKarts(s.race, s.crew, s.crew.nextKart);
    TallyScored(s.race, s.crew, s.crew.nextKart);
    ScoredEarly(s.crew, t.crew);
    EveryoneEarly(t.crew, t.crew.order);
    hide NoneEarlier, Valid, TallyKarts, EveryoneToLobby, ChunkList, Scored;
    Chain(s.crew, t.crew, EveryoneToLobby(t.crew, t.crew.order));
    SameEarly(s.crew);
  }

  lemma ConstructEarly(terrain: Terrain, s: State)
    requires Valid(s.world.track)
    ensures NoneEarlier(s.crew, Construct(terrain, s).crew)
  {
    BoardAllEarly(s.crew, s.crew.roster);
    SameEarly(s.crew);
    hide NoneEarlier, Valid, BoardAll, Apply;
  }

  lemma TickEarly(terrain: Terrain, s: State, confirmed: set<nat>, crossing: set<nat>)
    requires Valid(s.world.track)
    ensures NoneEarlier(s.crew, TickRound(terrain, s, confirmed, crossing).crew)
  {
    hide NoneEarlier, Valid, Construct, Barrier, Drive, Judge, Scored;
    var ticked := State(s.race.(tick := s.race.tick + 1), Barrier(s.crew, s.crew.order, confirmed), s.world);
    BarrierEarly(s.crew, s.crew.order, confirmed);
    ConstructEarly(terrain, ticked);
    ConstructTrack(terrain, ticked);
    var built := Load(Construct(terrain, ticked));
    Chain(s.crew, ticked.crew, built.crew);
    var race := CountDown(built.race);
    var driven := State(race, Drive(race, built.crew, crossing), built.world);
    DriveScored(race, built.crew, crossing);
    ScoredEarly(built.crew, driven.crew);
    JudgeEarly(driven);
    Chain(s.crew, built.crew, driven.crew);
    Chain(s.crew, driven.crew, Judge(driven).crew);
  }

  lemma LaunchEarly(terrain: Terrain, s: State, p: nat, laps: nat, track: Track)
    requires Valid(s.world.track) && Valid(track)
    ensures NoneEarlier(s.crew, LaunchRound(terrain, s, p, laps, track).crew)
  {
    var listed := Enlist(s.crew, s.crew.roster);
    EnlistEarly(s.crew, s.crew.roster);
    assert NoneEarlier(s.crew, listed);
    EveryoneEarly(listed, s.crew.order);
    SameEarly(s.crew);
    hide NoneEarlier, Valid, Enlist, EveryoneToLobby, ChunkList, Apply;
    Chain(s.crew, listed, EveryoneToLobby(listed, s.crew.order));
  }

  /** Only a join before becoming ready puts an unready player on the grid. */
  lemma StepEarly(terrain: Terrain, s: State, e: Event, p: nat)
    requires Valid(s.world.track) && ValidEvent(s.crew, e) && GridOk(s.crew) && Early(Step(terrain, s, e).crew, p)
    ensures Early(s.crew, p) || (e == Join(p) && p in s.crew.players && !s.crew.players[p].ready)
  {
    hide Valid, GridOk, TickRound, LaunchRound, Apply, BecomeReady, LeaveRace, CancelTeleport, RescueKart, Scored,
         Pilots.Connect, Pilots.Disconnect;
    match e
    case Connect => ConnectEarly(s.crew);
    case Ready(q) => ReadyEarly(s.crew, q);
    case Disconnect(q) => DisconnectEarly(s.crew, q);
    case Join(q) => GridEarly(s.crew, q);
    case Leave(q) => LeaveEarly(s.crew, q);
    case Rescue(q) =>
      RescueScored(s.race, s.crew, q);
      ScoredEarly(s.crew, RescueKart(s.race, s.crew, q));
    case Cancel(q) => CancelEarly(s.crew, q);
    case Launch(q, laps, track) => LaunchEarly(terrain, s, q, laps, track);
    case Stream(pos) =>
    case Tick(confirmed, crossing) => TickEarly(terrain, s, confirmed, crossing);
  }

  lemma CancelEarly(c: Crew, p: nat)
    ensures NoneEarlier(c, CancelTeleport(c, p))
  {
    if p in c.players { EndTeleportEarly(c, p, Cancelled); }
    hide EndTeleport;
  }

  // ---- runs ----------------------------------------------------------------------------------

  /** Over every run an unready player on the grid has sent a join before. */
  lemma {:induction false} EarlyHasJoined(terrain: Terrain, run: seq<State>, events: seq<Event>, k: nat, p: nat)
    requires Run(terrain, run, events) && k < |run| && Early(run[k].crew, p)
    ensures exists j :: 0 <= j < k && events[j] == Join(p) && p in run[j].crew.players && !run[j].crew.players[p].ready
  {
    hide Step, Valid, GridOk;
    if k > 0 {
      assert StepTo(terrain, run[k - 1], events[k - 1], run[k]);
      GridAlways(terrain, run, events, k - 1);
      StepEarly(terrain, run[k - 1], events[k - 1], p);
      if Early(run[k - 1].crew, p) { EarlyHasJoined(terrain, run, events, k - 1, p); }
    }
  }

  /** A client that reports itself ready once, and joins only after that. */
  predicate Polite(c: Crew, e: Event) {
    match e
    case Ready(p) => p in c.players ==> !c.players[p].ready
    case Join(p) => p in c.players ==> c.players[p].ready
    case _ => true
  }

  lemma EnlistedIsListed(c: Crew, p: nat)
    requires GridOk(c) && Enlisted(c, p)
    ensures p in c.players && p in c.roster
  {
    assert RacerOk(c, p);
  }

  /** Polite clients do no harm, whenever they come and go. */
  lemma PoliteIsHarmless(terrain: Terrain, run: seq<State>, events: seq<Event>, k: nat)
    requires Run(terrain, run, events) && k < |run|
    requires forall j :: 0 <= j < k ==> Polite(run[j].crew, events[j])
    ensures HarmlessUpTo(run, events, k)
  {
    forall j | 0 <= j < k ensures Harmless(run[j].race, run[j].crew, events[j]) {
      hide Run, GridOk, Enlisted;
      GridAlways(terrain, run, events, j);
      var (c, e) := (run[j].crew, events[j]);
      assert Polite(c, e);
      if (e.Ready? || e.Disconnect?) && Enlisted(c, e.p) {
        EnlistedIsListed(c, e.p);
        if Early(c, e.p) {
          EarlyHasJoined(terrain, run, events, j, e.p);
        }
      }
    }
  }
}
