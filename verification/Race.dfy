/** The round machine of void-demo/src/race.rs: seven phases over the crew, the
    shared world and a stack of pending chunks.

    The commands and outcomes of players are events of the environment; a tick
    runs the barrier and then the chain of systems in its order. Which pilots'
    clients have confirmed their teleport, and which karts cross their next gate,
    are inputs of a tick. */
module Race {
  import opened Options
  import opened TrackIndex
  import opened Arena
  import opened Pilots

  const MAX_LAPS := 20
  const LAPS := 3
  const COUNTDOWN := 100
  const TIME_LIMIT := 12000
  const BUILD_PERIOD := 2
  const RESET_PENALTY := 60

  datatype Phase = Lobby | Generating | Loading | Countdown | Racing | Destroying | Results
  {
    predicate Idle() {
      Lobby? || Results?
    }
  }

  datatype Score = Score(pilot: nat, time: nat)

  /** `loadedAt` records the tick at which construction ended. */
  datatype Round = Round(
    tick: nat,
    start: nat,
    phase: Phase,
    laps: nat,
    round: nat,
    results: seq<Score>,
    pending: seq<ChunkPos>,
    total: nat,
    loadedAt: nat)
  {
    function TimeLimit(): nat {
      if TIME_LIMIT / LAPS * laps > TIME_LIMIT then TIME_LIMIT / LAPS * laps else TIME_LIMIT
    }

    function Elapsed(): nat {
      if tick >= start then tick - start else 0
    }

    function Schedule(next: Phase, chunks: seq<ChunkPos>): Round {
      this.(phase := next, total := |chunks|, pending := chunks)
    }
  }

  datatype State = State(race: Round, crew: Crew, world: World)

  datatype Event =
    | Connect
    | Ready(p: nat)
    | Disconnect(p: nat)
    | Join(p: nat)
    | Leave(p: nat)
    | Rescue(p: nat)
    | Cancel(p: nat)
    | Launch(p: nat, laps: nat, track: Track)
    | Stream(pos: ChunkPos)
    | Tick(confirmed: set<nat>, crossing: set<nat>)

  // ---- the observers --------------------------------------------------------------

  /** Back to the last gate: the penalty is all that outlives the position. */
  function RescueKart(race: Round, c: Crew, p: nat): Crew {
    var k := KartOf(c, p);
    if race.phase.Racing? && k.Some? && c.karts[k.value].Racing() then
      WithKart(c, k.value, c.karts[k.value].(penalty := c.karts[k.value].penalty + RESET_PENALTY))
    else c
  }

  function CancelTeleport(c: Crew, p: nat): Crew {
    if p in c.players && c.players[p].teleport.Some? then EndTeleport(c, p, Cancelled) else c
  }

  predicate Launches(s: State, p: nat, laps: nat) {
    1 <= laps <= MAX_LAPS && p in s.crew.roster && s.race.phase.Idle()
  }

  ghost function LaunchRound(terrain: Terrain, s: State, p: nat, laps: nat, track: Track): State
    requires Valid(s.world.track) && Valid(track)
  {
    if !Launches(s, p, laps) then s
    else
      State(s.race.(round := s.race.round + 1, laps := laps, results := []).Schedule(Generating, ChunkList(track)),
            EveryoneToLobby(Enlist(s.crew, s.crew.roster), s.crew.order),
            Apply(terrain, s.world, Op.Prepare(track)))
  }

  // ---- the systems of a tick ---------------------------------------------------------

  predicate Waits(race: Round) {
    || !(race.phase.Generating? || race.phase.Destroying?)
    || (race.tick % BUILD_PERIOD != 0 && race.pending != [])
  }

  /** One chunk off the stack every other tick; the phase ends with the stack. */
  ghost function Construct(terrain: Terrain, s: State): State
    requires Valid(s.world.track)
  {
    if Waits(s.race) then s
    else
      var build := s.race.phase.Generating?;
      var n := |s.race.pending|;
      var world := if n == 0 then s.world else Apply(terrain, s.world, Op.Replace(s.race.pending[n - 1], build));
      var race := if n == 0 then s.race else s.race.(pending := s.race.pending[..n - 1]);
      if n > 1 then State(race, s.crew, world)
      else if build then
        State(race.(phase := Loading, loadedAt := race.tick), BoardAll(s.crew, s.crew.roster), world)
      else
        State(race.(phase := Results), s.crew, world)
  }

  /** A kart of the round whose pilot is still being transferred. */
  predicate Transferring(c: Crew) {
    exists k :: k in c.karts && c.karts[k].participant && OnTransfer(c, c.karts[k].pilot)
  }

  predicate OnTransfer(c: Crew, p: nat) {
    p in c.players && c.players[p].transfer.Some?
  }

  function Load(s: State): State {
    if !s.race.phase.Loading? || Transferring(s.crew) then s
    else s.(race := s.race.(phase := Countdown, start := s.race.tick + COUNTDOWN))
  }

  function CountDown(race: Round): Round {
    if race.phase.Countdown? && race.start <= race.tick then race.(phase := Racing) else race
  }

  /** Every kart still racing moves; at most one gate is crossed. */
  function Drive(race: Round, c: Crew, crossing: set<nat>): Crew {
    if !race.phase.Racing? then c
    else
      c.(karts := map k | k in c.karts ::
        if c.karts[k].Racing() && k in crossing then c.karts[k].(nextGate := c.karts[k].nextGate + 1) else c.karts[k])
  }

  /** The lap's time is a subtraction of unsigned ticks. */
  function LapDone(race: Round, racer: Racer): Racer {
    var since := if racer.lapStart > race.start then racer.lapStart else race.start;
    var time := race.tick - since;
    var best := if racer.bestLap.Some? && racer.bestLap.value < time then racer.bestLap.value else time;
    racer.(lapStart := race.tick, bestLap := Some(best))
  }

  function PassGate(race: Round, racer: Racer, nextGate: gate): Racer {
    if nextGate == racer.gate then racer
    else
      var moved := racer.(gate := nextGate);
      if (nextGate - 1) % GATES == 0 then LapDone(race, moved) else moved
  }

  function InsertScore(scores: seq<Score>, score: Score): (r: seq<Score>)
    ensures |r| == |scores| + 1
  {
    var n := |scores|;
    if n == 0 || scores[n - 1].time <= score.time then scores + [score]
    else InsertScore(scores[..n - 1], score) + [scores[n - 1]]
  }

  /** A stable sort by time. */
  function SortScores(scores: seq<Score>): (r: seq<Score>)
    ensures |r| == |scores|
  {
    if scores == [] then []
    else InsertScore(SortScores(scores[..|scores| - 1]), scores[|scores| - 1])
  }

  datatype Tally = Tally(crew: Crew, results: seq<Score>, unfinished: nat)

  /** The pilot behind a kart that still races, if its racer component is there. */
  predicate Counted(c: Crew, k: nat) {
    && k in c.karts && c.karts[k].Racing()
    && c.karts[k].pilot in c.players && c.players[c.karts[k].pilot].racer.Some?
  }

  function Finishes(race: Round, c: Crew, k: nat): bool {
    Counted(c, k) && c.karts[k].nextGate > race.laps * GATES
  }

  function TimeOf(race: Round, c: Crew, k: nat): Score
    requires k in c.karts
  {
    Score(c.karts[k].pilot, race.Elapsed() + c.karts[k].penalty)
  }

  function TallyKart(race: Round, t: Tally, k: nat): Tally {
    if !Counted(t.crew, k) then t
    else
      var kart := t.crew.karts[k];
      var player := t.crew.players[kart.pilot];
      var crew := WithPlayer(t.crew, kart.pilot,
                             player.(racer := Some(PassGate(race, player.racer.value, kart.nextGate))));
      if Finishes(race, t.crew, k) then
        var score := TimeOf(race, t.crew, k);
        Tally(WithKart(crew, k, kart.(finished := Some(score.time))), SortScores(t.results + [score]), t.unfinished)
      else Tally(crew, t.results, t.unfinished + 1)
  }

  /** The karts with entity below n, in order. */
  function TallyKarts(race: Round, c: Crew, n: nat): Tally {
    if n == 0 then Tally(c, race.results, 0) else TallyKart(race, TallyKarts(race, c, n - 1), n - 1)
  }

  ghost function Reversed<T>(s: seq<T>): (r: seq<T>)
    ensures |r| == |s| && forall i :: 0 <= i < |s| ==> r[i] == s[|s| - 1 - i]
  {
    seq(|s|, i requires 0 <= i < |s| => s[|s| - 1 - i])
  }

  ghost function Judge(s: State): State
    requires Valid(s.world.track)
  {
    if !s.race.phase.Racing? then s
    else
      var t := TallyKarts(s.race, s.crew, s.crew.nextKart);
      var race := s.race.(results := t.results);
      if t.unfinished > 0 && race.Elapsed() < race.TimeLimit() then s.(race := race, crew := t.crew)
      else
        s.(race := race.Schedule(Destroying, Reversed(ChunkList(s.world.track))),
           crew := EveryoneToLobby(t.crew, t.crew.order))
  }

  ghost function TickRound(terrain: Terrain, s: State, confirmed: set<nat>, crossing: set<nat>): State
    requires Valid(s.world.track)
  {
    var ticked := State(s.race.(tick := s.race.tick + 1), Barrier(s.crew, s.crew.order, confirmed), s.world);
    Drives(Load(Construct(terrain, ticked)), crossing)
  }

  ghost function Drives(s: State, crossing: set<nat>): State
    requires Valid(s.world.track)
  {
    var race := CountDown(s.race);
    Judge(State(race, Drive(race, s.crew, crossing), s.world))
  }

  lemma ConstructTrack(terrain: Terrain, s: State)
    requires Valid(s.world.track)
    ensures Construct(terrain, s).world.track == s.world.track
  {
    hide Valid, Generate, BoardAll;
  }

  lemma LoadTrack(s: State)
    ensures Load(s).world == s.world
  {}

  // ---- runs ------------------------------------------------------------------------

  /** Events come from connected clients, tracks from `Track::new`. */
  ghost predicate ValidEvent(c: Crew, e: Event) {
    && (e.Ready? || e.Disconnect? || e.Join? || e.Leave? || e.Rescue? || e.Cancel? || e.Launch? ==> e.p in c.players)
    && (e.Launch? ==> Valid(e.track))
  }

  ghost function Step(terrain: Terrain, s: State, e: Event): State
    requires Valid(s.world.track) && ValidEvent(s.crew, e)
  {
    match e
    case Connect => s.(crew := Pilots.Connect(s.crew))
    case Ready(p) => s.(crew := BecomeReady(s.crew, p))
    case Disconnect(p) => s.(crew := Pilots.Disconnect(s.crew, p))
    case Join(p) => s.(crew := JoinGrid(s.crew, p))
    case Leave(p) => s.(crew := LeaveRace(s.crew, p))
    case Rescue(p) => s.(crew := RescueKart(s.race, s.crew, p))
    case Cancel(p) => s.(crew := CancelTeleport(s.crew, p))
    case Launch(p, laps, track) => LaunchRound(terrain, s, p, laps, track)
    case Stream(pos) => s.(world := Apply(terrain, s.world, Op.Stream(pos)))
    case Tick(confirmed, crossing) => TickRound(terrain, s, confirmed, crossing)
  }

  ghost predicate Initial(s: State) {
    && Valid(s.world.track)
    && s == State(Round(0, 0, Lobby, LAPS, 0, [], [], 0, 0),
                  Crew(map[], [], [], map[], 0, 0),
                  World(s.world.track, {}, map[], {}, false))
  }

  ghost predicate Run(terrain: Terrain, run: seq<State>, events: seq<Event>) {
    && |run| == |events| + 1
    && Initial(run[0])
    && forall k :: 0 <= k < |events| ==> StepTo(terrain, run[k], events[k], run[k + 1])
  }

  ghost predicate StepTo(terrain: Terrain, s: State, e: Event, t: State) {
    Valid(s.world.track) && ValidEvent(s.crew, e) && t == Step(terrain, s, e)
  }
}
