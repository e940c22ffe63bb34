/** The finish line: what one pass over the karts adds to the results, and the
    clocks that lap times are subtracted from. */
module RaceScores {
  import opened TrackIndex
  import opened Arena
  import opened Pilots
  import opened Race
  import opened Seats
  import opened RaceSeats
  import opened RaceLiveness

  // ---- the sort --------------------------------------------------------------------

  predicate Sorted(s: seq<Score>) {
    forall i, j :: 0 <= i < j < |s| ==> s[i].time <= s[j].time
  }

  /** The entries of one time, in order. */
  function OfTime(s: seq<Score>, time: nat): seq<Score> {
    if s == [] then []
    else OfTime(s[..|s| - 1], time) + if s[|s| - 1].time == time then [s[|s| - 1]] else []
  }

  lemma AppendSorted(s: seq<Score>, last: Score)
    requires Sorted(s) && forall x :: x in s ==> x.time <= last.time
    ensures Sorted(s + [last])
  {}

  lemma {:induction false} InsertKeeps(s: seq<Score>, score: Score)
    ensures multiset(InsertScore(s, score)) == multiset(s) + multiset{score}
    ensures forall x :: x in InsertScore(s, score) <==> x in s || x == score
  {
    var n := |s|;
    if n > 0 {
      InsertKeeps(s[..n - 1], score);
      assert s == s[..n - 1] + [s[n - 1]];
    }
  }

  lemma {:induction false} InsertSorted(s: seq<Score>, score: Score)
    requires Sorted(s)
    ensures Sorted(InsertScore(s, score))
  {
    var n := |s|;
    if n > 0 {
      if s[n - 1].time > score.time {
        InsertSorted(s[..n - 1], score);
        InsertKeeps(s[..n - 1], score);
        AppendSorted(InsertScore(s[..n - 1], score), s[n - 1]);
      } else {
        AppendSorted(s, score);
      }
    }
  }

  /** Insertion goes behind the entries of the same time. */
  lemma {:induction false} InsertStable(s: seq<Score>, score: Score, time: nat)
    requires Sorted(s)
    ensures OfTime(InsertScore(s, score), time) == OfTime(s, time) + if score.time == time then [score] else []
  {
    var n := |s|;
    if n > 0 && s[n - 1].time > score.time {
      InsertStable(s[..n - 1], score, time);
      var r := InsertScore(s[..n - 1], score);
      assert (r + [s[n - 1]])[..|r|] == r;
    } else {
      assert (s + [score])[..n] == s;
    }
  }

  /** The sort by time is a stable one. */
  lemma {:induction false} SortIsStable(s: seq<Score>, time: nat)
    ensures Sorted(SortScores(s)) && multiset(SortScores(s)) == multiset(s)
    ensures OfTime(SortScores(s), time) == OfTime(s, time)
  {
    if s != [] {
      var rest := s[..|s| - 1];
      SortIsStable(rest, time);
      assert s == rest + [s[|s| - 1]];
      hide Sorted, InsertScore;
      InsertSorted(SortScores(rest), s[|s| - 1]);
      InsertKeeps(SortScores(rest), s[|s| - 1]);
      InsertStable(SortScores(rest), s[|s| - 1], time);
    }
  }

  lemma {:induction false} SortedStays(s: seq<Score>)
    requires Sorted(s)
    ensures SortScores(s) == s
  {
    if s != [] {
      SortedStays(s[..|s| - 1]);
    }
  }

  lemma SortAgain(s: seq<Score>, score: Score)
    ensures SortScores(SortScores(s) + [score]) == SortScores(s + [score])
  {
    SortIsStable(s, 0);
    SortedStays(SortScores(s));
    assert (SortScores(s) + [score])[..|s|] == SortScores(s);
    assert (s + [score])[..|s|] == s;
  }

  // ---- one pass over the karts --------------------------------------------------------

  /** The scores of the karts below n that cross the line now, in kart order. */
  function Finishers(race: Round, c: Crew, n: nat): seq<Score> {
    if n == 0 then []
    else Finishers(race, c, n - 1) + if Finishes(race, c, n - 1) then [TimeOf(race, c, n - 1)] else []
  }

  function Unfinished(race: Round, c: Crew, n: nat): set<nat> {
    set k: nat | k < n && Counted(c, k) && !Finishes(race, c, k)
  }

  /** Karts from n on are still as they were. */
  lemma {:induction false} TallyAhead(race: Round, c: Crew, n: nat, k: nat)
    requires n <= k
    ensures var d := TallyKarts(race, c, n).crew;
            && (Counted(d, k) <==> Counted(c, k))
            && (k in c.karts ==> k in d.karts && d.karts[k] == c.karts[k])
  {
    TallyScored(race, c, n);
    hide PassGate, SortScores;
    if n > 0 {
      TallyAhead(race, c, n - 1, k);
      TallyScored(race, c, n - 1);
    }
  }

  /** The loop over the karts, one sort per finisher, amounts to sorting once, and
      counts exactly the karts that have not crossed the line. */
  lemma {:induction false} TallySettles(race: Round, c: Crew, n: nat)
    requires Sorted(race.results)
    ensures var t := TallyKarts(race, c, n);
            && t.results == SortScores(race.results + Finishers(race, c, n))
            && t.unfinished == |Unfinished(race, c, n)|
  {
    if n == 0 {
      SortedStays(race.results);
      assert race.results + [] == race.results;
      assert Unfinished(race, c, 0) == {};
    } else {
      TallySettles(race, c, n - 1);
      TallyAhead(race, c, n - 1, n - 1);
      TallyUnfolds(race, c, n);
      hide TallyKarts, Sorted;
      TallyNext(race, c, n, TallyKarts(race, c, n - 1));
    }
  }

  lemma TallyNext(race: Round, c: Crew, n: nat, t: Tally)
    requires n > 0 && (Counted(t.crew, n - 1) <==> Counted(c, n - 1))
    requires n - 1 in c.karts ==> n - 1 in t.crew.karts && t.crew.karts[n - 1] == c.karts[n - 1]
    requires t.results == SortScores(race.results + Finishers(race, c, n - 1))
    requires t.unfinished == |Unfinished(race, c, n - 1)|
    ensures var next := TallyKart(race, t, n - 1);
            && next.results == SortScores(race.results + Finishers(race, c, n))
            && next.unfinished == |Unfinished(race, c, n)|
  {
    assert Finishes(race, t.crew, n - 1) <==> Finishes(race, c, n - 1);
    assert Finishes(race, c, n - 1) ==> TimeOf(race, t.crew, n - 1) == TimeOf(race, c, n - 1);
    hide SortScores, PassGate, Finishers, Unfinished, TimeOf, Sorted;
    UnfinishedNext(race, c, n);
    FinishersNext(race, c, n);
    if Finishes(race, c, n - 1) {
      SortAgain(race.results + Finishers(race, c, n - 1), TimeOf(race, c, n - 1));
    }
  }

  lemma UnfinishedNext(race: Round, c: Crew, n: nat)
    requires n > 0
    ensures |Unfinished(race, c, n)| == |Unfinished(race, c, n - 1)| + if Counted(c, n - 1) && !Finishes(race, c, n - 1) then 1 else 0
  {
    var before := Unfinished(race, c, n - 1);
    assert Unfinished(race, c, n) == before + if Counted(c, n - 1) && !Finishes(race, c, n - 1) then {n - 1} else {};
  }

  lemma FinishersNext(race: Round, c: Crew, n: nat)
    requires n > 0
    ensures var before := race.results + Finishers(race, c, n - 1);
            race.results + Finishers(race, c, n) == if Finishes(race, c, n - 1) then before + [TimeOf(race, c, n - 1)] else before
  {}

  predicate Overdue(ticks: int, laps: nat) {
    ticks >= 12000 && ticks >= 4000 * laps
  }

  /** The round ends exactly when no kart is left on the road or time is up, after ten minutes
      or 200 seconds a lap, whichever is longer; and the results gain the finishers of this
      tick in order of their times. */
  lemma RoundEnds(s: State)
    requires Valid(s.world.track) && s.race.phase.Racing? && Sorted(s.race.results)
    ensures var (t, n) := (Judge(s), s.crew.nextKart);
      && t.race.results == SortScores(s.race.results + Finishers(s.race, s.crew, n))
      && t.race.phase == (if Unfinished(s.race, s.crew, n) == {} || Overdue(s.race.tick - s.race.start, s.race.laps)
                          then Destroying else Racing)
  {
    TallySettles(s.race, s.crew, s.crew.nextKart);
    hide Valid, ChunkList, TallyKarts, SortScores, EveryoneToLobby;
  }

  // ---- clocks over every run ------------------------------------------------------------

  /** No lap starts in the future, so no lap time is negative. */
  predicate LapsOk(tick: nat, c: Crew) {
    forall p :: p in c.players && c.players[p].racer.Some? ==> RacerTimed(tick, c.players[p].racer.value)
  }

  predicate RacerTimed(tick: nat, racer: Racer) {
    racer.lapStart <= tick && (racer.bestLap.Some? ==> racer.bestLap.value >= 0)
  }

  predicate ScoresOk(race: Round, c: Crew) {
    LapsOk(race.tick, c) && Sorted(race.results)
  }

  lemma {:induction false} TallyLaps(race: Round, c: Crew, n: nat)
    requires LapsOk(race.tick, c) && race.start <= race.tick
    ensures LapsOk(race.tick, TallyKarts(race, c, n).crew)
  {
    if n > 0 {
      TallyLaps(race, c, n - 1);
      TallyKartLaps(race, TallyKarts(race, c, n - 1), n - 1);
    }
  }

  lemma TallyKartLaps(race: Round, t: Tally, k: nat)
    requires LapsOk(race.tick, t.crew) && race.start <= race.tick
    ensures LapsOk(race.tick, TallyKart(race, t, k).crew)
  {
    if Counted(t.crew, k) {
      var player := t.crew.players[t.crew.karts[k].pilot];
      PassGateTimed(race, player.racer.value, t.crew.karts[k].nextGate);
      hide PassGate, SortScores, RacerTimed;
    }
  }

  lemma PassGateTimed(race: Round, racer: Racer, next: gate)
    requires RacerTimed(race.tick, racer) && race.start <= race.tick
    ensures RacerTimed(race.tick, PassGate(race, racer, next))
  {}

  /** Steps that touch racers at most by removing them, or by starting them afresh. */
  ghost predicate RacersKept(c: Crew, d: Crew) {
    forall p :: p in d.players && d.players[p].racer.Some? ==>
      || (p in c.players && d.players[p].racer == c.players[p].racer)
      || (d.players[p].racer.value.lapStart == 0 && d.players[p].racer.value.bestLap.None?)
  }

  lemma KeptChain(c: Crew, d: Crew, e: Crew)
    requires RacersKept(c, d) && RacersKept(d, e)
    ensures RacersKept(c, e)
  {}

  lemma KeptLaps(c: Crew, d: Crew, tick: nat)
    requires LapsOk(tick, c) && RacersKept(c, d)
    ensures LapsOk(tick, d)
  {}

  lemma FlyKept(c: Crew, p: nat)
    ensures RacersKept(c, Fly(c, p)) && RacersKept(c, SendToLobby(c, p))
  {
    hide SeatOf, Without;
  }

  lemma EndTeleportKept(c: Crew, p: nat, outcome: Outcome)
    requires p in c.players
    ensures RacersKept(c, EndTeleport(c, p, outcome))
  {
    hide SeatOf, Without;
  }

  lemma {:induction false} BarrierKept(c: Crew, players: seq<nat>, confirmed: set<nat>)
    ensures RacersKept(c, Barrier(c, players, confirmed))
  {
    if players != [] {
      var p := players[|players| - 1];
      var before := Barrier(c, players[..|players| - 1], confirmed);
      BarrierKept(c, players[..|players| - 1], confirmed);
      if p in before.players {
        EndTeleportKept(before, p, TimedOut);
        EndTeleportKept(before, p, Confirmed);
      }
      hide EndTeleport;
      KeptChain(c, before, Barrier(c, players, confirmed));
    }
  }

  lemma {:induction false} EveryoneKept(c: Crew, players: seq<nat>)
    ensures RacersKept(c, EveryoneToLobby(c, players))
  {
    if players != [] {
      var before := EveryoneToLobby(c, players[..|players| - 1]);
      EveryoneKept(c, players[..|players| - 1]);
      FlyKept(before, players[|players| - 1]);
      hide SendToLobby;
      KeptChain(c, before, EveryoneToLobby(c, players));
    }
  }

  lemma {:induction false} EnlistKept(c: Crew, players: seq<nat>)
    ensures RacersKept(c, Enlist(c, players))
  {
    if players != [] {
      EnlistKept(c, players[..|players| - 1]);
    }
  }

  lemma BoardOneKept(c: Crew, p: nat)
    ensures RacersKept(c, BoardOne(c, p))
  {}

  lemma {:induction false} BoardAllKept(c: Crew, players: seq<nat>)
    ensures RacersKept(c, BoardAll(c, players))
  {
    if players != [] {
      var before := BoardAll(c, players[..|players| - 1]);
      BoardAllKept(c, players[..|players| - 1]);
      BoardOneKept(before, players[|players| - 1]);
      hide BoardOne;
      KeptChain(c, before, BoardAll(c, players));
    }
  }

  lemma GridKept(c: Crew, p: nat)
    ensures RacersKept(c, JoinGrid(c, p)) && RacersKept(c, LeaveGrid(c, p))
    ensures RacersKept(c, Despawn(c, p)) && RacersKept(c, Pilots.Connect(c))
  {
    hide Without, RemoveFirst;
  }

  lemma EventKept(race: Round, c: Crew, e: Event)
    requires ValidEvent(c, e)
    ensures RacersKept(c, AfterEvent(race, c, e))
  {
    match e
    case Connect => GridKept(c, 0);
    case Ready(p) => ReadyKept(c, p);
    case Disconnect(p) =>
      hide LeaveGrid, Despawn;
      GridKept(c, p);
      GridKept(LeaveGrid(c, p), p);
    case Join(p) => GridKept(c, p);
    case Leave(p) =>
      hide LeaveGrid, SendToLobby;
      GridKept(c, p);
      FlyKept(LeaveGrid(c, p), p);
    case Cancel(p) => EndTeleportKept(c, p, Cancelled);
    case _ =>
  }

  lemma ReadyKept(c: Crew, p: nat)
    ensures RacersKept(c, BecomeReady(c, p))
  {
    hide Fly, JoinGrid;
    if p in c.players {
      var marked := WithPlayer(c, p, c.players[p].(ready := true));
      FlyKept(marked, p);
      GridKept(Fly(marked, p), p);
    }
  }

  lemma JudgeScores(s: State)
    requires Valid(s.world.track) && ScoresOk(s.race, s.crew) && (s.race.phase.Racing? ==> s.race.start <= s.race.tick)
    ensures ScoresOk(Judge(s).race, Judge(s).crew)
  {
    if s.race.phase.Racing? {
      var t := TallyKarts(s.race, s.crew, s.crew.nextKart);
      TallyLaps(s.race, s.crew, s.crew.nextKart);
      TallySettles(s.race, s.crew, s.crew.nextKart);
      SortIsStable(s.race.results + Finishers(s.race, s.crew, s.crew.nextKart), 0);
      EveryoneKept(t.crew, t.crew.order);
      hide Valid, TallyKarts, EveryoneToLobby, Finishers, SortScores, RacersKept, LapsOk;
      KeptLaps(t.crew, EveryoneToLobby(t.crew, t.crew.order), s.race.tick);
    }
  }

  lemma DriveKept(race: Round, c: Crew, crossing: set<nat>)
    ensures RacersKept(c, Drive(race, c, crossing))
  {}

  lemma DrivesScores(s: State, crossing: set<nat>)
    requires Valid(s.world.track) && ScoresOk(s.race, s.crew) && (s.race.phase.Racing? ==> s.race.start <= s.race.tick)
    ensures ScoresOk(Drives(s, crossing).race, Drives(s, crossing).crew)
  {
    hide Valid, LapsOk, RacersKept, Drive, Judge;
    var race := CountDown(s.race);
    DriveKept(race, s.crew, crossing);
    KeptLaps(s.crew, Drive(race, s.crew, crossing), s.race.tick);
    JudgeScores(State(race, Drive(race, s.crew, crossing), s.world));
  }

  lemma ConstructScores(terrain: Terrain, s: State)
    requires Valid(s.world.track) && ScoresOk(s.race, s.crew)
    ensures ScoresOk(Construct(terrain, s).race, Construct(terrain, s).crew)
  {
    hide Valid, LapsOk, RacersKept, BoardAll, Apply;
    BoardAllKept(s.crew, s.crew.roster);
    KeptLaps(s.crew, BoardAll(s.crew, s.crew.roster), s.race.tick);
  }

  lemma TickScores(terrain: Terrain, s: State, confirmed: set<nat>, crossing: set<nat>)
    requires Valid(s.world.track) && ScoresOk(s.race, s.crew) && Timed(s.race, s.crew, false)
    ensures var t := TickRound(terrain, s, confirmed, crossing); ScoresOk(t.race, t.crew)
  {
    var ticked := Ticked(s, confirmed);
    BarrierKept(s.crew, s.crew.order, confirmed);
    KeptLaps(s.crew, ticked.crew, s.race.tick);
    assert LapsOk(ticked.race.tick, ticked.crew);
    hide Valid, LapsOk, RacersKept, Construct, Barrier, Drives, GridOk, OnTime, Transferring;
    ConstructScores(terrain, ticked);
    ConstructConstructs(terrain, ticked);
    DrivesScores(Load(Construct(terrain, ticked)), crossing);
  }

  lemma StepScores(terrain: Terrain, s: State, e: Event)
    requires Valid(s.world.track) && ValidEvent(s.crew, e) && ScoresOk(s.race, s.crew) && Timed(s.race, s.crew, false)
    ensures ScoresOk(Step(terrain, s, e).race, Step(terrain, s, e).crew)
  {
    hide Valid, LapsOk, RacersKept, TickRound, EveryoneToLobby, Enlist, Apply, Timed, ChunkList,
         BecomeReady, JoinGrid, LeaveRace, RescueKart, CancelTeleport, Pilots.Connect, Pilots.Disconnect;
    EventKept(s.race, s.crew, e);
    KeptLaps(s.crew, AfterEvent(s.race, s.crew, e), s.race.tick);
    match e
    case Tick(confirmed, crossing) => TickScores(terrain, s, confirmed, crossing);
    case Launch(p, laps, track) =>
      var listed := Enlist(s.crew, s.crew.roster);
      EnlistKept(s.crew, s.crew.roster);
      EveryoneKept(listed, s.crew.order);
      KeptChain(s.crew, listed, EveryoneToLobby(listed, s.crew.order));
      KeptLaps(s.crew, EveryoneToLobby(listed, s.crew.order), s.race.tick);
    case _ =>
  }

  /** In every reachable state the results are in order and no lap time has
      wrapped around below zero. */
  lemma {:induction false} ScoresAlways(terrain: Terrain, run: seq<State>, events: seq<Event>, k: nat)
    requires Run(terrain, run, events) && k < |run|
    ensures ScoresOk(run[k].race, run[k].crew)
  {
    if k > 0 {
      ScoresAlways(terrain, run, events, k - 1);
      TimedAlways(terrain, run, events, k - 1);
      assert StepTo(terrain, run[k - 1], events[k - 1], run[k]);
      StepScores(terrain, run[k - 1], events[k - 1]);
    }
  }
}
