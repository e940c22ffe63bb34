/** Who takes part in a round, and in which order players and karts stand. */
module Rosters {
  import opened Options
  import opened TrackIndex
  import opened Arena
  import opened Pilots
  import opened Seats
  import opened Race
  import opened RaceSeats
  import opened RaceLiveness

  // ---- the order of players and karts ------------------------------------------------------

  predicate Ascending(s: seq<nat>) {
    forall i, j :: 0 <= i < j < |s| ==> s[i] < s[j]
  }

  predicate IsPilot(c: Crew, k: nat, p: nat) {
    k in c.karts && c.karts[k].pilot == p
  }

  /** Pilots stand on the roster in the order of their karts. */
  ghost predicate Lined(c: Crew) {
    forall i, j, k, l :: 0 <= i < j < |c.roster| && IsPilot(c, k, c.roster[i]) && IsPilot(c, l, c.roster[j]) ==> k < l
  }

  ghost predicate InOrder(c: Crew) {
    Ascending(c.order) && Lined(c)
  }

  /** Nobody new, nobody moved. */
  ghost predicate SameLine(c: Crew, d: Crew) {
    && d.order == c.order && d.roster == c.roster
    && forall k, p :: IsPilot(d, k, p) ==> IsPilot(c, k, p)
  }

  lemma SameLineKeeps(c: Crew, d: Crew)
    requires InOrder(c) && SameLine(c, d)
    ensures InOrder(d)
  {}

  lemma LineChain(c: Crew, d: Crew, e: Crew)
    requires SameLine(c, d) && SameLine(d, e)
    ensures SameLine(c, e)
  {}

  lemma SendLine(c: Crew, p: nat)
    ensures SameLine(c, Fly(c, p)) && SameLine(c, SendToLobby(c, p))
  {
    hide SeatOf, Without;
  }

  lemma EndTeleportLine(c: Crew, p: nat, outcome: Outcome)
    requires p in c.players
    ensures SameLine(c, EndTeleport(c, p, outcome))
  {
    hide SeatOf, Without;
  }

  lemma {:induction false} BarrierLine(c: Crew, players: seq<nat>, confirmed: set<nat>)
    ensures SameLine(c, Barrier(c, players, confirmed))
  {
    if players != [] {
      var (before, p) := (Barrier(c, players[..|players| - 1], confirmed), players[|players| - 1]);
      BarrierLine(c, players[..|players| - 1], confirmed);
      if p in before.players {
        EndTeleportLine(before, p, TimedOut);
        EndTeleportLine(before, p, Confirmed);
      }
      hide EndTeleport;
      LineChain(c, before, Barrier(c, players, confirmed));
    }
  }

  lemma {:induction false} EveryoneLine(c: Crew, players: seq<nat>)
    ensures SameLine(c, EveryoneToLobby(c, players))
  {
    if players != [] {
      var before := EveryoneToLobby(c, players[..|players| - 1]);
      EveryoneLine(c, players[..|players| - 1]);
      SendLine(before, players[|players| - 1]);
      hide SendToLobby;
      LineChain(c, before, EveryoneToLobby(c, players));
    }
  }

  lemma {:induction false} EnlistLine(c: Crew, players: seq<nat>)
    ensures SameLine(c, Enlist(c, players))
  {
    if players != [] { EnlistLine(c, players[..|players| - 1]); }
  }

  lemma {:induction false} BoardAllLine(c: Crew, players: seq<nat>)
    ensures SameLine(c, BoardAll(c, players))
  {
    if players != [] {
      var before := BoardAll(c, players[..|players| - 1]);
      BoardAllLine(c, players[..|players| - 1]);
      BoardOneLine(before, players[|players| - 1]);
      hide BoardOne;
      LineChain(c, before, BoardAll(c, players));
    }
  }

  lemma BoardOneLine(c: Crew, p: nat)
    ensures SameLine(c, BoardOne(c, p))
  {}

  lemma JoinInOrder(c: Crew, p: nat)
    requires GridOk(c) && InOrder(c)
    ensures InOrder(JoinGrid(c, p))
  {
    var d := JoinGrid(c, p);
    if d != c {
      assert d.roster == c.roster + [p] && p !in c.roster && d.order == c.order;
      forall k: nat, q: nat | IsPilot(d, k, q) ensures if k == c.nextKart then q == p else k < c.nextKart && IsPilot(c, k, q) && q in c.roster {}
      hide GridOk, JoinGrid, IsPilot;
      forall i, j, k, l | 0 <= i < j < |d.roster| && IsPilot(d, k, d.roster[i]) && IsPilot(d, l, d.roster[j]) ensures k < l {
        assert d.roster[i] == c.roster[i];
      }
    }
  }

  /** Where the elements of a list come from once p is taken out. */
  lemma {:induction false} WithoutKeepsOrder(s: seq<nat>, p: nat, i: nat, j: nat) returns (a: nat, b: nat)
    requires i < j < |Without(s, p)|
    ensures a < b < |s| && s[a] == Without(s, p)[i] && s[b] == Without(s, p)[j]
  {
    if s[0] == p {
      a, b := WithoutKeepsOrder(s[1..], p, i, j);
      a, b := a + 1, b + 1;
    } else if i > 0 {
      a, b := WithoutKeepsOrder(s[1..], p, i - 1, j - 1);
      a, b := a + 1, b + 1;
    } else {
      a := 0;
      var x := Without(s, p)[j];
      assert x == Without(s[1..], p)[j - 1] && x in Without(s[1..], p) && x in s[1..];
      var k :| 0 <= k < |s[1..]| && s[1..][k] == x;
      b := k + 1;
    }
  }

  lemma WithoutAscends(s: seq<nat>, p: nat)
    requires Ascending(s)
    ensures Ascending(Without(s, p))
  {
    var rest := Without(s, p);
    forall i, j | 0 <= i < j < |rest| ensures rest[i] < rest[j] {
      var a, b := WithoutKeepsOrder(s, p, i, j);
    }
    hide Without;
  }

  lemma LeaveInOrder(c: Crew, p: nat)
    requires GridOk(c) && InOrder(c)
    ensures InOrder(LeaveGrid(c, p))
  {
    if p in c.roster {
      var d := LeaveGrid(c, p);
      assert d.roster == Without(c.roster, p);
      assert forall k, q :: IsPilot(d, k, q) ==> IsPilot(c, k, q);
      assert d.order == c.order;
      hide GridOk, RemoveFirst, Without, LeaveGrid, IsPilot;
      forall i, j, k, l | 0 <= i < j < |d.roster| && IsPilot(d, k, d.roster[i]) && IsPilot(d, l, d.roster[j]) ensures k < l {
        var a, b := WithoutKeepsOrder(c.roster, p, i, j);
        assert IsPilot(c, k, c.roster[a]) && IsPilot(c, l, c.roster[b]);
      }
    }
  }

  lemma DespawnInOrder(c: Crew, p: nat)
    requires InOrder(c)
    ensures InOrder(Despawn(c, p))
  {
    WithoutAscends(c.order, p);
    assert forall k, q :: IsPilot(Despawn(c, p), k, q) ==> IsPilot(c, k, q);
    hide Without;
  }

  lemma ConnectInOrder(c: Crew)
    requires GridOk(c) && InOrder(c)
    ensures InOrder(Pilots.Connect(c))
  {
    forall i | 0 <= i < |c.order| ensures c.order[i] < c.nextPlayer { assert c.order[i] in c.order; }
    assert forall k, q :: IsPilot(Pilots.Connect(c), k, q) ==> IsPilot(c, k, q);
    hide Distinct;
  }

  lemma ReadyInOrder(c: Crew, p: nat)
    requires GridOk(c) && InOrder(c) && p in c.players
    ensures InOrder(BecomeReady(c, p))
  {
    var marked := WithPlayer(c, p, c.players[p].(ready := true));
    var flown := Fly(marked, p);
    FlownOk(c, p);
    assert SameLine(c, marked);
    SendLine(marked, p);
    LineChain(c, marked, flown);
    hide Fly, JoinGrid, GridOk, SameLine, InOrder;
    SameLineKeeps(c, flown);
    JoinInOrder(flown, p);
  }

  lemma FlownOk(c: Crew, p: nat)
    requires GridOk(c) && p in c.players
    ensures GridOk(Fly(WithPlayer(c, p, c.players[p].(ready := true)), p))
  {
    assert RacerOk(c, p);
    var marked := WithPlayer(c, p, c.players[p].(ready := true));
    LocalGrid(c, marked, p);
    FlyLocal(marked, p);
    LocalGrid(marked, Fly(marked, p), p);
  }

  lemma EventInOrder(race: Round, c: Crew, e: Event)
    requires GridOk(c) && InOrder(c) && ValidEvent(c, e)
    ensures InOrder(AfterEvent(race, c, e))
  {
    hide GridOk, InOrder, SameLine, LeaveGrid, Despawn, SendToLobby, EndTeleport, BecomeReady, JoinGrid, Pilots.Connect;
    match e
    case Connect => ConnectInOrder(c);
    case Ready(p) => ReadyInOrder(c, p);
    case Disconnect(p) =>
      LeaveInOrder(c, p);
      DespawnInOrder(LeaveGrid(c, p), p);
      DespawnInOrder(c, p);
    case Join(p) => JoinInOrder(c, p);
    case Leave(p) =>
      LeaveInOrder(c, p);
      SendLine(LeaveGrid(c, p), p);
      SameLineKeeps(LeaveGrid(c, p), SendToLobby(LeaveGrid(c, p), p));
    case Rescue(p) =>
      RescueLine(race, c, p);
      SameLineKeeps(c, RescueKart(race, c, p));
    case Cancel(p) =>
      EndTeleportLine(c, p, Cancelled);
      SameLineKeeps(c, EndTeleport(c, p, Cancelled));
    case _ =>
  }

  lemma RescueLine(race: Round, c: Crew, p: nat)
    ensures SameLine(c, RescueKart(race, c, p))
  {}

  lemma ScoredLine(c: Crew, d: Crew)
    requires Scored(c, d)
    ensures SameLine(c, d)
  {}

  lemma JudgeLine(s: State)
    requires Valid(s.world.track)
    ensures SameLine(s.crew, Judge(s).crew)
  {
    var t := TallyKarts(s.race, s.crew, s.crew.nextKart);
    TallyScored(s.race, s.crew, s.crew.nextKart);
    ScoredLine(s.crew, t.crew);
    EveryoneLine(t.crew, t.crew.order);
    hide Valid, TallyKarts, EveryoneToLobby, ChunkList, Scored;
    LineChain(s.crew, t.crew, EveryoneToLobby(t.crew, t.crew.order));
  }

  lemma TickLine(terrain: Terrain, s: State, confirmed: set<nat>, crossing: set<nat>)
    requires Valid(s.world.track)
    ensures SameLine(s.crew, TickRound(terrain, s, confirmed, crossing).crew)
  {
    var ticked := Ticked(s, confirmed);
    BarrierLine(s.crew, s.crew.order, confirmed);
    BoardAllLine(ticked.crew, ticked.crew.roster);
    hide SameLine, Valid, Barrier, Drive, Judge, Scored, BoardAll, Apply, Transferring;
    ConstructTrack(terrain, ticked);
    var built := Load(Construct(terrain, ticked));
    var race := CountDown(built.race);
    var driven := State(race, Drive(race, built.crew, crossing), built.world);
    assert built.crew == ticked.crew || built.crew == BoardAll(ticked.crew, ticked.crew.roster);
    hide Construct, Load;
    DriveScored(race, built.crew, crossing);
    ScoredLine(built.crew, driven.crew);
    JudgeLine(driven);
    LineChain(s.crew, ticked.crew, built.crew);
    LineChain(s.crew, built.crew, driven.crew);
    LineChain(s.crew, driven.crew, Judge(driven).crew);
  }

  lemma LaunchLine(terrain: Terrain, s: State, p: nat, laps: nat, track: Track)
    requires Valid(s.world.track) && Valid(track)
    ensures SameLine(s.crew, LaunchRound(terrain, s, p, laps, track).crew)
  {
    var listed := Enlist(s.crew, s.crew.roster);
    EnlistLine(s.crew, s.crew.roster);
    EveryoneLine(listed, s.crew.order);
    hide Valid, Enlist, EveryoneToLobby, ChunkList, Apply;
    LineChain(s.crew, listed, EveryoneToLobby(listed, s.crew.order));
  }

  lemma StepInOrder(terrain: Terrain, s: State, e: Event)
    requires Valid(s.world.track) && ValidEvent(s.crew, e) && GridOk(s.crew) && InOrder(s.crew)
    ensures InOrder(Step(terrain, s, e).crew)
  {
    hide Valid, GridOk, InOrder, SameLine, TickRound, LaunchRound, AfterEvent, Apply;
    if e.Tick? {
      TickLine(terrain, s, e.confirmed, e.crossing);
      SameLineKeeps(s.crew, TickRound(terrain, s, e.confirmed, e.crossing).crew);
    } else if e.Launch? {
      LaunchLine(terrain, s, e.p, e.laps, e.track);
      SameLineKeeps(s.crew, LaunchRound(terrain, s, e.p, e.laps, e.track).crew);
    } else {
      EventInOrder(s.race, s.crew, e);
      CrewEventStep(terrain, s, e);
      hide Step;
    }
  }

  /** Over every run players are visited in the order in which they connected, and pilots stand
      on the roster in the order in which their karts were made. */
  lemma {:induction false} InOrderAlways(terrain: Terrain, run: seq<State>, events: seq<Event>, i: nat)
    requires Run(terrain, run, events) && i < |run|
    ensures InOrder(run[i].crew)
  {
    hide Step, Valid, GridOk;
    if i > 0 {
      InOrderAlways(terrain, run, events, i - 1);
      GridAlways(terrain, run, events, i - 1);
      assert StepTo(terrain, run[i - 1], events[i - 1], run[i]);
      StepInOrder(terrain, run[i - 1], events[i - 1]);
    }
  }

  // ---- onto the roster -----------------------------------------------------------------------

  /** A player that becomes ready flies, and is on the roster with a kart of its own from then on,
      unless the grid of eight is full; who was on it stays where it was. */
  lemma ReadyJoins(c: Crew, p: nat)
    requires GridOk(c) && p in c.players
    ensures var d := BecomeReady(c, p);
      && d.players.Keys == c.players.Keys && d.players[p].ready && d.players[p].airborne
      && d.roster == (if p in c.roster || |c.roster| >= 8 then c.roster else c.roster + [p])
      && (p in d.roster <==> KartOf(d, p).Some? && d.karts[KartOf(d, p).value].pilot == p)
      && forall q :: q in c.players && q != p ==> d.players[q] == c.players[q]
  {
    FlownOk(c, p);
    FlownIs(c, p);
    hide Fly, GridOk, JoinGrid;
    JoinedIs(Fly(WithPlayer(c, p, c.players[p].(ready := true)), p), p);
  }

  lemma FlownIs(c: Crew, p: nat)
    requires p in c.players
    ensures var d := Fly(WithPlayer(c, p, c.players[p].(ready := true)), p);
            d.roster == c.roster && d.players == c.players[p := c.players[p].(ready := true, airborne := true)]
  {
    hide SeatOf, Without;
  }

  lemma JoinedIs(c: Crew, p: nat)
    requires GridOk(c) && p in c.players
    ensures var d := JoinGrid(c, p);
      && d.roster == (if p in c.roster || |c.roster| >= 8 then c.roster else c.roster + [p])
      && p in d.players && d.players == c.players[p := c.players[p].(racer := d.players[p].racer)]
      && (p in d.roster <==> KartOf(d, p).Some? && d.karts[KartOf(d, p).value].pilot == p)
  {
    assert RacerOk(c, p);
    hide TablesOk, KartsOk;
  }

  // ---- the start of a round ------------------------------------------------------------------

  lemma {:induction false} Enlisting(c: Crew, players: seq<nat>, p: nat)
    requires GridOk(c)
    ensures var d := Enlist(c, players);
            && d.players == c.players && d.karts.Keys == c.karts.Keys
            && forall k :: k in c.karts ==> d.karts[k] == c.karts[k].(participant := d.karts[k].participant)
    ensures p in players && p in c.players && c.players[p].racer.Some? ==>
              KartOf(c, p).Some? && Enlist(c, players).karts[KartOf(c, p).value].participant
  {
    if p in c.players { assert RacerOk(c, p); }
    if players != [] { Enlisting(c, players[..|players| - 1], p); }
  }

  lemma {:induction false} EveryoneKeepsParticipants(c: Crew, players: seq<nat>)
    ensures var d := EveryoneToLobby(c, players);
            d.karts.Keys == c.karts.Keys && forall k :: k in c.karts ==> d.karts[k].participant == c.karts[k].participant
  {
    if players != [] {
      EveryoneKeepsParticipants(c, players[..|players| - 1]);
      hide SeatOf, Without;
    }
  }

  function OnTheWay(player: Player): Player {
    player.(airborne := true, transfer := Some(ToLobby), teleport := Some(0), controlled := true)
  }

  lemma SentOnTheWay(c: Crew, p: nat)
    requires p in c.players
    ensures SendToLobby(c, p).players == c.players[p := OnTheWay(c.players[p])]
  {
    hide SeatOf, Without;
  }

  /** All ready players, and no other, are on their way to the lobby. */
  lemma {:induction false} EveryoneOnTheWay(c: Crew, players: seq<nat>, p: nat)
    requires p in c.players
    ensures var d := EveryoneToLobby(c, players);
            p in d.players && d.players[p] == if p in players && c.players[p].ready then OnTheWay(c.players[p]) else c.players[p]
  {
    if players != [] {
      var (rest, q) := (players[..|players| - 1], players[|players| - 1]);
      EveryoneOnTheWay(c, rest, p);
      var before := EveryoneToLobby(c, rest);
      if q in before.players { SentOnTheWay(before, q); }
      hide SendToLobby;
    }
  }

  /** A launch is accepted from a player on the roster, for 1 to 20 laps, when no round is in
      progress; then the next round begins to be built, on the new track, for that many laps and
      with no results, every kart whose pilot is connected takes part in it, and all ready players are
      on their way to the lobby. */
  lemma LaunchOpens(terrain: Terrain, s: State, e: Event)
    requires Valid(s.world.track) && ValidEvent(s.crew, e) && GridOk(s.crew) && e.Launch?
    ensures var t := Step(terrain, s, e);
      if 1 <= e.laps <= 20 && e.p in s.crew.roster && (s.race.phase.Lobby? || s.race.phase.Results?) then
        && t.race.phase.Generating? && t.race.round == s.race.round + 1 && t.race.laps == e.laps && t.race.results == []
        && t.race.tick == s.race.tick && (s.world.built == {} ==> t.world.track == e.track)
        && t.race.pending == ChunkList(e.track) && t.race.total == |ChunkList(e.track)|
        && t.crew.karts.Keys == s.crew.karts.Keys
        && (forall k :: k in t.crew.karts && s.crew.karts[k].pilot in s.crew.players ==> t.crew.karts[k].participant)
        && forall p :: p in s.crew.players ==>
             p in t.crew.players && t.crew.players[p] == if s.crew.players[p].ready then OnTheWay(s.crew.players[p]) else s.crew.players[p]
      else t == s
  {
    if Launches(s, e.p, e.laps) {
      var listed := Enlist(s.crew, s.crew.roster);
      Enlisting(s.crew, s.crew.roster, 0);
      EveryoneKeepsParticipants(listed, s.crew.order);
      forall k | k in s.crew.karts && s.crew.karts[k].pilot in s.crew.players ensures listed.karts[k].participant {
        var p := s.crew.karts[k].pilot;
        assert RacerOk(s.crew, p) && p in s.crew.roster;
        Enlisting(s.crew, s.crew.roster, p);
        assert KartOf(s.crew, p) == Some(k);
      }
      forall p | p in s.crew.players
        ensures var t := EveryoneToLobby(listed, s.crew.order);
                p in t.players && t.players[p] == if s.crew.players[p].ready then OnTheWay(s.crew.players[p]) else s.crew.players[p]
      {
        EveryoneOnTheWay(listed, s.crew.order, p);
      }
    }
    hide OnTheWay;
    hide Valid, Enlist, EveryoneToLobby, ChunkList, GridOk;
  }
}
