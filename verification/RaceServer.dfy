/** The systems of void-demo/src/race.rs over shared resources: the round, the
    grid of karts and the arena. Every method is proved to take the step that the
    round machine takes. */
module RaceServer {
  import opened Options
  import opened TrackIndex
  import opened Arena
  import opened Pilots
  import opened Race
  import opened Paddock

  /** The stack of chunks to demolish. */
  method Reverse(chunks: seq<ChunkPos>) returns (r: seq<ChunkPos>)
    ensures r == Reversed(chunks)
  {
    r := [];
    for i := 0 to |chunks|
      invariant |r| == i && forall j :: 0 <= j < i ==> r[j] == chunks[|chunks| - 1 - j]
    {
      r := r + [chunks[|chunks| - 1 - i]];
    }
  }

  method InsertByTime(scores: seq<Score>, score: Score) returns (r: seq<Score>)
    ensures r == InsertScore(scores, score)
  {
    var j := |scores|;
    assert scores[..j] == scores;
    while j > 0 && scores[j - 1].time > score.time
      invariant 0 <= j <= |scores|
      invariant InsertScore(scores, score) == InsertScore(scores[..j], score) + scores[j..]
    {
      assert scores[..j][..j - 1] == scores[..j - 1];
      assert scores[j - 1..] == [scores[j - 1]] + scores[j..];
      j := j - 1;
    }
    r := scores[..j] + [score] + scores[j..];
  }

  /** A stable sort by time, by insertion. */
  method SortByTime(scores: seq<Score>) returns (r: seq<Score>)
    ensures r == SortScores(scores)
  {
    r := [];
    for i := 0 to |scores|
      invariant r == SortScores(scores[..i])
    {
      assert scores[..i + 1][..i] == scores[..i];
      r := InsertByTime(r, scores[i]);
    }
    assert scores[..|scores|] == scores;
  }

  class Server {
    const grid: Grid
    const arena: ArenaResource
    var tick: nat
    var start: nat
    var phase: Phase
    var laps: nat
    var round: nat
    var results: seq<Score>
    var pending: seq<ChunkPos>
    var total: nat
    var loadedAt: nat

    constructor (terrain: Terrain, track: Track)
      requires Valid(track)
      ensures fresh(grid) && fresh(arena) && arena.terrain == terrain && Initial(View())
    {
      var emptyGrid := new Grid();
      var landscape := new ArenaResource(terrain, track);
      grid, arena := emptyGrid, landscape;
      tick, start, phase, laps, round, results, pending, total, loadedAt := 0, 0, Lobby, LAPS, 0, [], [], 0, 0;
    }

    ghost function RoundView(): Round
      reads this
    {
      Round(tick, start, phase, laps, round, results, pending, total, loadedAt)
    }

    ghost function View(): State
      reads this, grid, arena
    {
      State(RoundView(), grid.View(), arena.View())
    }

    function TimeLimit(): (limit: nat)
      reads this
      ensures limit == RoundView().TimeLimit()
    {
      var scaled := TIME_LIMIT / LAPS * laps;
      if scaled > TIME_LIMIT then scaled else TIME_LIMIT
    }

    function Elapsed(): (elapsed: nat)
      reads this
      ensures elapsed == RoundView().Elapsed()
    {
      if tick >= start then tick - start else 0
    }

    method Schedule(next: Phase, chunks: seq<ChunkPos>)
      modifies this
      ensures RoundView() == old(RoundView()).Schedule(next, chunks)
    {
      phase := next;
      total := |chunks|;
      pending := chunks;
    }

    /** The command that starts a round. */
    method Launch(p: nat, newLaps: nat, track: Track)
      requires Valid(arena.track) && Valid(track)
      modifies this, grid, arena
      ensures View() == LaunchRound(arena.terrain, old(View()), p, newLaps, track)
    {
      hide Valid, Enlist, EveryoneToLobby, ChunkList;
      if !(1 <= newLaps <= MAX_LAPS) {
        return;
      }
      if p !in grid.roster {
        return;
      }
      if !phase.Idle() {
        return;
      }
      grid.EnlistRoster();
      assert grid.order == old(grid.order) by { EnlistKeepsOrder(old(grid.View()), old(grid.roster)); }
      grid.AllToLobby();
      arena.Prepare(track);
      round := round + 1;
      laps := newLaps;
      results := [];
      var chunks := Chunks(track);
      Schedule(Generating, chunks);
    }

    static lemma {:induction false} EnlistKeepsOrder(c: Crew, players: seq<nat>)
      ensures Enlist(c, players).order == c.order && Enlist(c, players).roster == c.roster
    {
      if players != [] {
        EnlistKeepsOrder(c, players[..|players| - 1]);
      }
    }

    method Rescue(p: nat)
      modifies grid
      ensures View() == old(View()).(crew := RescueKart(old(RoundView()), old(grid.View()), p))
    {
      if phase != Racing {
        return;
      }
      var k := grid.FindKart(p);
      if k.None? {
        return;
      }
      var kart := grid.karts[k.value];
      if !kart.Racing() {
        return;
      }
      grid.karts := grid.karts[k.value := kart.(penalty := kart.penalty + RESET_PENALTY)];
    }

    method ConstructSystem()
      requires Valid(arena.track)
      modifies this, grid, arena
      ensures View() == Construct(arena.terrain, old(View()))
    {
      hide Valid, Generate, BoardAll;
      if phase != Generating && phase != Destroying {
        return;
      }
      var build := phase == Generating;
      if tick % BUILD_PERIOD != 0 && pending != [] {
        return;
      }
      if pending != [] {
        var pos := pending[|pending| - 1];
        pending := pending[..|pending| - 1];
        arena.Replace(pos, build);
      }
      if pending != [] {
        return;
      }
      if build {
        grid.BoardRoster();
        phase := Loading;
        loadedAt := tick;
      } else {
        phase := Results;
      }
    }

    method LoadSystem()
      modifies this
      ensures View() == Load(old(View()))
    {
      if phase != Loading {
        return;
      }
      var rest := grid.karts.Keys;
      while rest != {}
        invariant rest <= grid.karts.Keys
        invariant forall k :: k in grid.karts && k !in rest ==>
          !(grid.karts[k].participant && OnTransfer(grid.View(), grid.karts[k].pilot))
        decreases rest
      {
        var k :| k in rest;
        var pilot := grid.karts[k].pilot;
        if grid.karts[k].participant && pilot in grid.players && grid.players[pilot].transfer.Some? {
          assert OnTransfer(grid.View(), pilot);
          assert Transferring(grid.View());
          return;
        }
        rest := rest - {k};
      }
      assert !Transferring(grid.View());
      phase := Countdown;
      start := tick + COUNTDOWN;
    }

    method CountdownSystem()
      modifies this
      ensures RoundView() == CountDown(old(RoundView()))
    {
      if phase != Countdown {
        return;
      }
      var remaining := if start >= tick then start - tick else 0;
      if remaining == 0 {
        phase := Racing;
      }
    }

    method DriveSystem(crossing: set<nat>)
      modifies grid
      ensures View() == old(View()).(crew := Drive(old(RoundView()), old(grid.View()), crossing))
    {
      if phase != Racing {
        return;
      }
      var rest := grid.karts.Keys;
      while rest != {}
        invariant rest <= grid.karts.Keys == old(grid.karts).Keys
        invariant grid.View() == old(grid.View()).(karts := grid.karts)
        invariant forall k :: k in rest ==> grid.karts[k] == old(grid.karts)[k]
        invariant forall k :: k in grid.karts && k !in rest ==> grid.karts[k] == Drive(old(RoundView()), old(grid.View()), crossing).karts[k]
        decreases rest
      {
        var k :| k in rest;
        var kart := grid.karts[k];
        if kart.Racing() && k in crossing {
          grid.karts := grid.karts[k := kart.(nextGate := kart.nextGate + 1)];
        }
        rest := rest - {k};
      }
      assert grid.karts == Drive(old(RoundView()), old(grid.View()), crossing).karts;
    }

    method Lap(racer: Racer, nextGate: gate) returns (r: Racer)
      ensures r == PassGate(RoundView(), racer, nextGate)
    {
      r := racer;
      if nextGate != racer.gate {
        r := r.(gate := nextGate);
        if (nextGate - 1) % GATES == 0 {
          var time := tick - (if r.lapStart > start then r.lapStart else start);
          r := r.(lapStart := tick, bestLap := Some(if r.bestLap.Some? && r.bestLap.value < time then r.bestLap.value else time));
        }
      }
    }

    /** One kart of the scoring loop. */
    method ScoreKart(k: nat, unfinished: nat) returns (count: nat)
      modifies this, grid
      ensures var before := old(RoundView());
              var t := TallyKart(before, Tally(old(grid.View()), before.results, unfinished), k);
              RoundView() == before.(results := t.results) && grid.View() == t.crew && count == t.unfinished
    {
      hide SortScores, PassGate;
      count := unfinished;
      if k !in grid.karts || !grid.karts[k].Racing() {
        return;
      }
      var kart := grid.karts[k];
      if kart.pilot !in grid.players || grid.players[kart.pilot].racer.None? {
        return;
      }
      var racer := Lap(grid.players[kart.pilot].racer.value, kart.nextGate);
      grid.players := grid.players[kart.pilot := grid.players[kart.pilot].(racer := Some(racer))];
      if kart.nextGate > laps * GATES {
        var time := Elapsed() + kart.penalty;
        grid.karts := grid.karts[k := kart.(finished := Some(time))];
        results := SortByTime(results + [Score(kart.pilot, time)]);
      } else {
        count := count + 1;
      }
    }

    static lemma TallyIgnoresResults(race: Round, results: seq<Score>, t: Tally, k: nat)
      ensures TallyKart(race.(results := results), t, k) == TallyKart(race, t, k)
    {
      hide SortScores, PassGate;
      if Counted(t.crew, k) {
        var racer := t.crew.players[t.crew.karts[k].pilot].racer.value;
        assert PassGate(race.(results := results), racer, t.crew.karts[k].nextGate)
            == PassGate(race, racer, t.crew.karts[k].nextGate) by { LapIgnoresResults(race, results, racer, t.crew.karts[k].nextGate); }
      }
    }

    static lemma LapIgnoresResults(race: Round, results: seq<Score>, racer: Racer, next: gate)
      ensures PassGate(race.(results := results), racer, next) == PassGate(race, racer, next)
    {}

    method RacingSystem()
      requires Valid(arena.track)
      modifies this, grid
      ensures View() == Judge(old(View()))
    {
      hide Valid, TallyKart, EveryoneToLobby, ChunkList;
      if phase != Racing {
        return;
      }
      ghost var before := RoundView();
      ghost var crew := grid.View();
      var (limit, elapsed, karts) := (TimeLimit(), Elapsed(), grid.nextKart);
      var unfinished := 0;
      for k := 0 to karts
        invariant RoundView() == before.(results := TallyKarts(before, crew, k).results)
        invariant grid.View() == TallyKarts(before, crew, k).crew && unfinished == TallyKarts(before, crew, k).unfinished
        invariant arena.View() == old(arena.View())
      {
        TallyIgnoresResults(before, results, Tally(grid.View(), results, unfinished), k);
        unfinished := ScoreKart(k, unfinished);
      }
      if unfinished > 0 && elapsed < limit {
        return;
      }
      var chunks := Chunks(arena.track);
      chunks := Reverse(chunks);
      Schedule(Destroying, chunks);
      grid.AllToLobby();
    }

    /** The teleport barrier, then the chain of systems. */
    method RunTick(confirmed: set<nat>, crossing: set<nat>)
      requires Valid(arena.track)
      modifies this, grid, arena
      ensures View() == TickRound(arena.terrain, old(View()), confirmed, crossing)
    {
      hide Valid, Barrier, Construct, Load, Drive, Judge;
      grid.RunBarrier(confirmed);
      tick := tick + 1;
      assert View() == State(old(RoundView()).(tick := old(tick) + 1), Barrier(old(grid.View()), old(grid.order), confirmed), old(arena.View()));
      ghost var ticked := View();
      ConstructTrack(arena.terrain, ticked);
      ConstructSystem();
      LoadSystem();
      ghost var loaded := View();
      CountdownSystem();
      DriveSystem(crossing);
      RacingSystem();
      assert loaded == Load(Construct(arena.terrain, ticked));
      assert View() == Drives(loaded, crossing);
    }
  }
}
