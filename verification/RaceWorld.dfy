/** Over every run of the round machine the set of built chunks is tied to the
    phase, so the assertion of `prepare` never fires and the world always shows
    what the generator would return. */
module RaceWorld {
  import opened TrackIndex
  import opened Arena
  import opened Pilots
  import opened Race

  ghost function Elements(chunks: seq<ChunkPos>): set<ChunkPos> {
    set pos | pos in chunks
  }

  ghost predicate Once(chunks: seq<ChunkPos>) {
    forall i, j :: 0 <= i < j < |chunks| ==> chunks[i] != chunks[j]
  }

  lemma ChunksOnce(track: Track)
    requires Valid(track)
    ensures Once(ChunkList(track)) && Elements(ChunkList(track)) == track.index.Keys
  {
    var chunks := ChunkList(track);
    forall i, j | 0 <= i < j < |chunks| ensures chunks[i] != chunks[j] {
      assert Ahead(track.index, chunks[j], chunks[i]);
    }
  }

  /** What is left to demolish: the start of the course, its first chunk on the bottom of the stack. */
  ghost predicate Demolished(pending: seq<ChunkPos>, all: seq<ChunkPos>) {
    |pending| <= |all| && forall i :: 0 <= i < |pending| ==> pending[i] == all[|all| - 1 - i]
  }

  /** What is built and what is pending, phase by phase. */
  ghost predicate BuildOk(race: Round, built: set<ChunkPos>, all: seq<ChunkPos>) {
    match race.phase
    case Lobby => built == {} && race.pending == []
    case Results => built == {} && race.pending == []
    case Generating => race.total == |all| && race.pending <= all && built == Elements(all[|race.pending|..])
    case Destroying => race.total == |all| && Demolished(race.pending, all) && built == Elements(all[|all| - |race.pending|..])
    case _ => race.pending == [] && built == Elements(all)
  }

  ghost predicate WorldOk(terrain: Terrain, s: State) {
    && Agrees(terrain, s.world)
    && !s.world.panicked
    && BuildOk(s.race, s.world.built, ChunkList(s.world.track))
  }

  lemma SplitOnce(all: seq<ChunkPos>, n: nat)
    requires n <= |all| && Once(all)
    ensures Elements(all[..n]) + Elements(all[n..]) == Elements(all)
    ensures Elements(all[..n]) !! Elements(all[n..])
  {
    assert all == all[..n] + all[n..];
    forall pos | pos in all[..n] ensures pos !in all[n..] {
      var i :| 0 <= i < n && all[i] == pos;
    }
  }

  /** While generating, the chunks of the circuit split into built and pending. */
  lemma PartitionWhileGenerating(terrain: Terrain, s: State)
    requires WorldOk(terrain, s) && s.race.phase.Generating?
    ensures s.world.built + Elements(s.race.pending) == s.world.track.index.Keys
    ensures s.world.built !! Elements(s.race.pending)
  {
    var all := ChunkList(s.world.track);
    ChunksOnce(s.world.track);
    hide Valid, ChunkList, Elements, Once, Agrees;
    SplitOnce(all, |s.race.pending|);
  }

  lemma PopBuilt(all: seq<ChunkPos>, n: nat)
    requires 0 < n <= |all| && Once(all)
    ensures Elements(all[n - 1..]) == Elements(all[n..]) + {all[n - 1]}
  {
    assert all[n - 1..] == [all[n - 1]] + all[n..];
  }

  lemma PopDemolished(pending: seq<ChunkPos>, all: seq<ChunkPos>)
    requires pending != [] && Demolished(pending, all) && Once(all)
    ensures var (rest, n) := (pending[..|pending| - 1], |all| - |pending|);
            && Demolished(rest, all) && pending[|pending| - 1] == all[n]
            && Elements(all[n + 1..]) == Elements(all[n..]) - {all[n]}
  {
    var n := |all| - |pending|;
    assert all[n..] == [all[n]] + all[n + 1..];
    assert forall i :: n < i < |all| ==> all[i] != all[n];
  }

  /** One chunk off the stack, built or demolished. */
  lemma PopKeeps(race: Round, built: set<ChunkPos>, all: seq<ChunkPos>, next: Round)
    requires BuildOk(race, built, all) && Once(all) && race.pending != []
    requires race.phase.Generating? || race.phase.Destroying?
    requires next.pending == race.pending[..|race.pending| - 1]
    requires next.total == race.total && next.phase == if |race.pending| > 1 then race.phase else if race.phase.Generating? then Loading else Results
    ensures var pos := race.pending[|race.pending| - 1];
            BuildOk(next, if race.phase.Generating? then built + {pos} else built - {pos}, all)
  {
    if race.phase.Generating? {
      PopBuilt(all, |race.pending|);
      assert all[0..] == all;
    } else {
      PopDemolished(race.pending, all);
    }
  }

  lemma ConstructWorld(terrain: Terrain, s: State)
    requires WorldOk(terrain, s)
    ensures Valid(s.world.track)
    ensures WorldOk(terrain, Construct(terrain, s))
    ensures Construct(terrain, s).world.track == s.world.track
  {
    var t := Construct(terrain, s);
    if !Waits(s.race) && s.race.pending != [] {
      var n := |s.race.pending|;
      var op := Op.Replace(s.race.pending[n - 1], s.race.phase.Generating?);
      ApplyAgrees(terrain, s.world, op);
      ChunksOnce(s.world.track);
      var all := ChunkList(s.world.track);
      assert t.world == Apply(terrain, s.world, op);
      PopKeeps(s.race, s.world.built, all, t.race);
    } else if !Waits(s.race) && s.race.phase.Generating? {
      assert ChunkList(s.world.track)[0..] == ChunkList(s.world.track);
    }
  }

  lemma LoadWorld(terrain: Terrain, s: State)
    requires WorldOk(terrain, s)
    ensures WorldOk(terrain, Load(s)) && Load(s).world == s.world
  {}

  lemma DemolitionWorld(track: Track)
    requires Valid(track)
    ensures Demolished(Reversed(ChunkList(track)), ChunkList(track))
    ensures ChunkList(track)[|ChunkList(track)| - |Reversed(ChunkList(track))|..] == ChunkList(track)
  {}

  lemma DrivesWorld(terrain: Terrain, s: State, crossing: set<nat>)
    requires WorldOk(terrain, s)
    ensures Valid(s.world.track)
    ensures WorldOk(terrain, Drives(s, crossing)) && Drives(s, crossing).world == s.world
  {
    DemolitionWorld(s.world.track);
    hide Valid, ChunkList, Elements, Once, Reversed, Generate, TallyKarts, EveryoneToLobby, Drive;
  }

  lemma ClockWorld(terrain: Terrain, s: State, crew: Crew)
    requires WorldOk(terrain, s)
    ensures Valid(s.world.track) && WorldOk(terrain, State(s.race.(tick := s.race.tick + 1), crew, s.world))
  {}

  lemma TickWorld(terrain: Terrain, s: State, confirmed: set<nat>, crossing: set<nat>)
    requires WorldOk(terrain, s)
    ensures Valid(s.world.track) && WorldOk(terrain, TickRound(terrain, s, confirmed, crossing))
    ensures TickRound(terrain, s, confirmed, crossing).world.track == s.world.track
  {
    hide Construct, Load, Drives, WorldOk, Valid, Barrier;
    var ticked := State(s.race.(tick := s.race.tick + 1), Barrier(s.crew, s.crew.order, confirmed), s.world);
    ClockWorld(terrain, s, ticked.crew);
    ConstructWorld(terrain, ticked);
    LoadWorld(terrain, Construct(terrain, ticked));
    DrivesWorld(terrain, Load(Construct(terrain, ticked)), crossing);
  }

  lemma LaunchWorld(terrain: Terrain, s: State, p: nat, laps: nat, track: Track)
    requires WorldOk(terrain, s) && Valid(track)
    ensures Valid(s.world.track) && WorldOk(terrain, LaunchRound(terrain, s, p, laps, track))
  {
    ApplyAgrees(terrain, s.world, Op.Prepare(track));
    hide Valid, Generate, Agrees, ChunkList, Enlist, EveryoneToLobby;
  }

  lemma StepWorld(terrain: Terrain, s: State, e: Event)
    requires WorldOk(terrain, s) && ValidEvent(s.crew, e)
    ensures Valid(s.world.track) && WorldOk(terrain, Step(terrain, s, e))
  {
    match e
    case Tick(confirmed, crossing) => TickWorld(terrain, s, confirmed, crossing);
    case Launch(p, laps, track) => LaunchWorld(terrain, s, p, laps, track);
    case Stream(pos) => ApplyAgrees(terrain, s.world, Op.Stream(pos));
    case _ =>
  }

  /** Whatever players do, in every reachable state. */
  lemma {:induction false} WorldAlways(terrain: Terrain, run: seq<State>, events: seq<Event>, k: nat)
    requires Run(terrain, run, events) && k < |run|
    ensures WorldOk(terrain, run[k])
  {
    if k > 0 {
      WorldAlways(terrain, run, events, k - 1);
      assert StepTo(terrain, run[k - 1], events[k - 1], run[k]);
      hide WorldOk, Step;
      StepWorld(terrain, run[k - 1], events[k - 1]);
    }
  }

  /** A race is only ever driven on a finished circuit: every column the world holds, of
      the index or not, is paved exactly where its centre is within HALF_WIDTH + 1 of the
      road, and landscape elsewhere. */
  lemma CircuitIsComplete(terrain: Terrain, run: seq<State>, events: seq<Event>, k: nat, wx: int, wz: int)
    requires Run(terrain, run, events) && k < |run|
    requires run[k].race.phase.Loading? || run[k].race.phase.Countdown? || run[k].race.phase.Racing?
    requires IsBlock(wx) && IsBlock(wz) && ChunkOf(wx, wz) in run[k].world.chunks
    ensures Valid(run[k].world.track)
    ensures var track := run[k].world.track;
            HoldsColumn(run[k].world.chunks, wx, wz,
              if exists i: nat, s: real :: OnRoadOf(track, wx, wz, i, s)
              then terrain.deck(ProjectSpec(track, wx as real + 0.5, wz as real + 0.5), wx, wz, terrain.base(wx, wz))
              else terrain.base(wx, wz))
  {
    WorldAlways(terrain, run, events, k);
    var world := run[k].world;
    ChunksOnce(world.track);
    ColumnStandsOnce(wx, wz, ChunkOf(wx, wz), PlaceOf(wx, wz));
    FullyBuilt(terrain, world, ChunkOf(wx, wz));
    ColumnsOf(terrain, world.track, wx, wz);
    assert |Overlaid(terrain, world.track, ChunkOf(wx, wz))| == COLUMNS;
    hide Valid, WorldOk, Overlaid, OnRoadOf, ProjectSpec, ChunkOf, PlaceOf;
  }

  /** Between rounds no trace of any circuit is left: every column is landscape. */
  lemma LandscapeIsRestored(terrain: Terrain, run: seq<State>, events: seq<Event>, k: nat, wx: int, wz: int)
    requires Run(terrain, run, events) && k < |run| && run[k].race.phase.Idle()
    requires IsBlock(wx) && IsBlock(wz) && ChunkOf(wx, wz) in run[k].world.chunks
    ensures HoldsColumn(run[k].world.chunks, wx, wz, terrain.base(wx, wz))
  {
    WorldAlways(terrain, run, events, k);
    var world := run[k].world;
    assert world.built == {} && world.chunks[ChunkOf(wx, wz)] == Landscape(terrain, ChunkOf(wx, wz));
    ColumnsOf(terrain, world.track, wx, wz);
    assert |Landscape(terrain, ChunkOf(wx, wz))| == COLUMNS;
    hide WorldOk, Run, Landscape, Overlaid, ChunkOf, PlaceOf, OnRoadOf, ProjectSpec;
  }

  // ---- the rhythm of building -------------------------------------------------------------

  predicate Builds(phase: Phase) {
    phase.Generating? || phase.Destroying?
  }

  /** While chunks are built or demolished, those with road are the first of the course: every one
      of them comes before every one without. So the road grows from its start and is taken away
      from its end; `total` counts all chunks of the course, and the stack what is still to do. */
  lemma RoadIsTheStartOfTheCourse(terrain: Terrain, run: seq<State>, events: seq<Event>, k: nat)
    requires Run(terrain, run, events) && k < |run| && Builds(run[k].race.phase)
    ensures Valid(run[k].world.track)
    ensures var (race, world, all) := (run[k].race, run[k].world, ChunkList(run[k].world.track));
      && race.total == |all| && |race.pending| <= |all|
      && world.built == Elements(all[if race.phase.Generating? then |race.pending| else |all| - |race.pending|..])
      && forall p, q :: p in world.built && q in world.track.index && q !in world.built ==>
           NonEmpty(world.track.index) && p in world.track.index && Ahead(world.track.index, p, q)
  {
    WorldAlways(terrain, run, events, k);
    var (race, world) := (run[k].race, run[k].world);
    var all := ChunkList(world.track);
    var n := if race.phase.Generating? then |race.pending| else |all| - |race.pending|;
    hide Agrees, ChunkList, Run;
    TailIsAhead(world.track, all, n);
  }

  lemma TailIsAhead(track: Track, all: seq<ChunkPos>, n: nat)
    requires Valid(track) && all == ChunkList(track) && n <= |all|
    ensures NonEmpty(track.index)
    ensures forall p, q :: p in Elements(all[n..]) && q in track.index && q !in Elements(all[n..]) ==>
              p in track.index && Ahead(track.index, p, q)
  {
    ChunksOnce(track);
    forall j | n <= j < |all| ensures all[j] in Elements(all[n..]) { assert all[n..][j - n] == all[j]; }
    forall p, q | p in Elements(all[n..]) && q in track.index && q !in Elements(all[n..])
      ensures p in track.index && Ahead(track.index, p, q)
    {
      var i :| 0 <= i < |all[n..]| && all[n..][i] == p;
      assert q in Elements(all);
      var j :| 0 <= j < |all| && all[j] == q;
      assert j < n && all[n + i] == p;
    }
    hide Ahead;
  }

  /** On every other tick a chunk comes off the stack, and with the last one the phase ends;
      nothing else touches the stack. */
  lemma StackStep(terrain: Terrain, s: State, e: Event)
    requires Valid(s.world.track) && ValidEvent(s.crew, e) && Builds(s.race.phase)
    ensures var (race, next) := (s.race, Step(terrain, s, e).race);
      if !e.Tick? then next == race
      else
        && next.tick == race.tick + 1
        && if next.tick % 2 != 0 && race.pending != [] then next.phase == race.phase && next.pending == race.pending
           else if |race.pending| > 1 then next.phase == race.phase && next.pending == race.pending[..|race.pending| - 1]
           else next.phase != race.phase
  {
    if e.Tick? {
      ConstructTrack(terrain, State(s.race.(tick := s.race.tick + 1), Barrier(s.crew, s.crew.order, e.confirmed), s.world));
    }
    hide Valid, Apply, Barrier, BoardAll, Drive, TallyKarts, EveryoneToLobby, Enlist, ChunkList, Reversed, Transferring;
  }

  /** Between any two moments of one phase of building, the stack has lost one chunk for each
      even tick. */
  lemma {:induction false} ChunksByTick(terrain: Terrain, run: seq<State>, events: seq<Event>, from: nat, to: nat)
    requires Run(terrain, run, events) && from <= to < |run| && Builds(run[from].race.phase)
    requires forall k :: from <= k <= to ==> run[k].race.phase == run[from].race.phase
    ensures var (a, b) := (run[from].race, run[to].race);
      && a.tick <= b.tick && b.pending <= a.pending
      && |b.pending| == |a.pending| - (b.tick / 2 - a.tick / 2)
  {
    hide Step, Valid;
    if from < to {
      ChunksByTick(terrain, run, events, from, to - 1);
      assert StepTo(terrain, run[to - 1], events[to - 1], run[to]);
      StackStep(terrain, run[to - 1], events[to - 1]);
    }
  }
}
