# Alpine Rush and its server: a verified model

A Dafny model of six parts of a Minecraft server and of the kart race that runs on it:
the race round machine, the spatial index over the track, the build-time compiler for
game data, the wire codec with its frames, the live ranking, and the persistence of the
world. Where the program updates state in place the model does so too, in classes whose
methods are proved to take the step of a specification function; the laws are then
proved about these functions, over all inputs and all runs.

Check it with `dafny verify dfyconfig.toml`.

## What the model says

**The round** (`Pilots`, `Seats`, `Race`, `RaceWorld`, `RaceSeats`, `RaceLiveness`,
`EarlyJoins`, `Control`, `Rosters`, `RaceScores`, `Counters`, `Times`; `Paddock` and `RaceServer` hold the systems, `Unseated` runs
that go wrong). Connections, ready and quit events, joins, leaves, rescues, launches, chunk
streaming, cancelled and confirmed teleports are steps an environment takes in any
order; a tick runs the teleport barrier and the chain of systems. Over every run the set of built chunks is tied to the phase,
so the assertion in `prepare` never fires; the world always shows what its generator
would return; the boarding barrier (below) stands exactly in the runs without two kinds
of events; and each round comes back to Results within a number of ticks that is known at its
launch. The barrier says: a kart of the round has a pilot that is connected; only in
Loading is anyone boarding, and only a kart of the round; from Countdown on each of them
has its pilot, and nobody else, in the seat; and a kart is visible exactly while its
pilot boards it or sits in it. `Control` says who sits, flies and is moved by the server,
`Times` what each result and each best lap is, told from the ticks and rescues of the run.

**The track and the arena** (`Reals`, `TrackIndex`, `Projections`, `Arena`; `Options` and `Sequences` are shared by all).
Projecting a point through the index by chunk equals a scan of all segments wherever the road is within the margin,
and so the chunks that are rebuilt for a round are all the chunks the road touches. What the world
shows is stated column by column.

**Game data** (`StateIds`, `Tags`, `Shapes`). State ids as a mixed-radix code, tags over
graphs with cycles, and the run-length table of collision shapes.

**The wire** (`VarInt`, `Wire`, `Lengths`, `Schema`, `SchemaLaws`, `SchemaInputs`, `Charges`,
`Canonical`, `Prefixes`, `Packets`, `Generated`, `Slots`, `SlotInputs`, `SlotDecoder`, `Vectors`, `VectorCodec`, `Frames`). The
derive macros are an interpreter over schemas, so one theorem covers every derived
packet, recursive declarations included: it is read back, it is the least of all byte strings
that decode to the value, and no encoding is the beginning of another one. The variable-length integer is unsigned LEB128,
section 7.6 of the DWARF Debugging Information Format Version 5.

**Ranking, displays, gates, lightning** (`Standings`, `Displays`, `Gates`, `Lightning`).
`Circuits` puts the gates and the round together: what a result says about the way driven.

**Persistence** (`ChunkFormat`, `Persistence`). A tree codec for chunks and the
write-back protocol around the dirty marker.

## Where the program differs from what one would expect

Each of these is proved as an exact condition.

- A client may report itself ready at any time and any number of times
  (void/src/plugins/play.rs:25-31), and may send commands before it is ready at all
  (void/src/network.rs:451-460; `join` does not ask, void-demo/src/race.rs:201-229). The
  ready observer lifts the pilot out of the seat even in the middle of a race, so a second
  ready event unseats a pilot, and so does the first one of a client that joined early. The
  quit observer runs for ready players only (void/src/network.rs:306-313), so a client that
  joined early and disconnects leaves its kart in the round. Exactly these two, a ready
  event of a pilot of a round that has started and the disconnect of an unready player with
  a kart in the round, break the boarding barrier; the early join itself does not, and no
  other event does (`StepSeats`, `SeatsAlways`). `ReadyBreaksTheBarrier` and
  `KartWithoutPilot` give the runs. The invariants of the world, the return to Results and
  the way driven for a result hold in all runs. A ready event of a pilot that sits also leaves
  it under the server's control although nobody moves it any more, until its next teleport
  ends; no other event does that (`StepSteered`, `SteeredAlways`).
- Setting a block entity queues an update and does not mark its chunk; the marker comes
  when the queue is drained at the end of the tick (void/src/plugins/block_entity.rs:29-55).
  One set between that and the flush on exit is lost (`SetUncovers`, `LostOnExit`): the
  world survives a restart exactly when each chunk with a queue is marked or unchanged
  (`WorldSurvives`).
- The encoder and the decoder evaluate a length in different arithmetic
  (`EvaluatorsAgree`, `WrittenIsReadBack`, and the three examples beside them).
- A repr enum whose discriminants are wider than the varint they are written as does not
  read back all of them (`SurvivesExactly`); a negative discriminant that is narrower than its
  varint is not written as the shortest bytes that are read as it (`CrookedIsLonger`).
- Slots with raw components, and empty slots other than the one, are written but not
  read back (`SlotRoundTrip`); block positions lose their high bits (`BlockRoundTrip`).
- Properties are classified without checking that numbers are in order and leave no gap or
  that true comes first (`ClassifyIsFaithfulWhen`), and accessors are emitted without
  checking that the id range is as long as it should be (`OnlyIfConsistent`).
- The comment on the collision lookup promises an empty shape for blocks without a table
  (void-data/build.rs:1025-1027), the emitted default is the full cube (line 1066); the
  model follows the code.
- An empty body is sent but not received (`ReceivedAsSent`).
- A lightning cast on the tick of the last strike of an older storm is lost
  (`CastTakesHold`), and a ninth rival can share a delay (`NinthRivalCollides`).
- A block entity whose block no longer hosts it is written and not restored
  (`EntitiesSurvive`).

## Model

| member | source | states |
|---|---|---|
| TrackIndex.BuildIndex | void-demo/src/track.rs:81-92 | under every chunk the index holds exactly the segments whose widened box meets it, in course order, and no empty entry |
| TrackIndex.FileSegment | void-demo/src/track.rs:87-91 | the two loops over a box add the segment behind what its chunks held, and touch no other chunk |
| TrackIndex.FiledMeetsBox | void-demo/src/track.rs:81-92 | a segment is filed under exactly the chunks that some point within the margin of its box lies in |
| TrackIndex.Project | void-demo/src/track.rs:135-160 | the loop over the segments of one chunk gives the projection that `Projections.ProjectionIsTheFoot` is about |
| Projections.ProjectionIsTheFoot | void-demo/src/track.rs:135-160 | for any point of an indexed chunk, of the segments filed there: the first of the nearest is reported; the reach is the distance of its nearest point; the height is one more than the floor of the road's height at that point; the road's point at the reported phase lies at exactly that distance; the normal has length 1, is perpendicular to the segment and points to the left of the course (x to the east, z to the south) |
| Projections.FootIsOne | void-demo/src/track.rs:146-147 | a segment has only one point nearest to a kart, so these say what the projection is |
| TrackIndex.ReachIsLeast | void-demo/src/track.rs:146-147 | the clamped foot is the point of the segment nearest to the kart: no other point of it is nearer |
| TrackIndex.NearSegmentsAreFiled | void/src/world/chunk_pos.rs:14-19 | a segment within the margin of a point is filed under the point's chunk, across negative coordinates and the saturating cast |
| TrackIndex.IndexAgreesWithScan | void-demo/src/track.rs:81-107 | within HALF_WIDTH + 2 of the road the projection through the index, `ProjectionIsTheFoot` saying which that is, is the one a scan of all segments gives; it reports a distance within the margin if and only if some point of the road is that near |
| TrackIndex.BruteForceIsNearest | void-demo/src/track.rs:143-157 | the scan it is compared with is right: its distance is the least over every point of every segment, reached on the earliest such segment |
| TrackIndex.OutsideTheIndex | void-demo/src/track.rs:136-142 | a point whose chunk is not in the index projects off the road |
| TrackIndex.CentreProjectsBack | void-demo/src/track.rs:109-128 | the road's centre at a phase projects back to distance 0 and to that phase, unless an earlier segment passes through the same point |
| TrackIndex.PartitionPoint | void-demo/src/track.rs:111-114 | the bisection splits the nodes exactly at the distance looked for |
| TrackIndex.Chunks | void-demo/src/track.rs:102-107 | every chunk of the index once, so that popping follows the course |
| TrackIndex.CourseOrderIsUnique | void-demo/src/track.rs:104-105 | the order by first segment, x and z is total: there is only one such list |
| Arena.GenerateChunk | void-demo/src/arena.rs:87-97 | the loop over the 256 places, with the road laid over built chunks only; which column stands where is `ColumnsOf` |
| Arena.ColumnStandsOnce | void/src/world/chunk_pos.rs:14-19 | for every block column of the world: its chunk is the quotients by 16, and the loops over chunks come to it at one place of that chunk, x mod 16 + 16 (z mod 16), and nowhere else |
| Arena.PlacesAreColumns | void-demo/src/arena.rs:87-97 | every place of every chunk is that of one column |
| Arena.ColumnsOf | void-demo/src/track.rs:166-173 | what stands there: the terrain's column, and with the road on it the deck's, if and only if some point of the road is near enough |
| Arena.Overlay | void-demo/src/track.rs:166-173 | each column is redrawn if its centre is on the deck and kept otherwise |
| Arena.RoadStaysInItsChunks | void-demo/src/track.rs:101-107 | drawing the road over a chunk outside the index would change nothing: every column it touches lies in a chunk of `chunks` |
| Arena.DeckIsComplete | void-demo/src/track.rs:170-173 | a column is drawn on if and only if some point of the road is within HALF_WIDTH + 1 of its centre |
| Arena.ApplyAgrees | void-demo/src/arena.rs:46-83 | prepare, replace and streaming keep every chunk of the world equal to what the generator would return now |
| Arena.WorldAgreesAlways | void-demo/src/arena.rs:46-97 | the same over every interleaving, and whenever nothing is built every chunk is bare landscape again |
| Arena.FullyBuilt | void-demo/src/arena.rs:87-97 | with the whole index built, every chunk of the world shows the complete road |
| Arena.ArenaResource.Prepare | void-demo/src/arena.rs:46-53 | the geometry is replaced, or the assertion fires, leaving the rest alone |
| Arena.ArenaResource.Replace | void-demo/src/arena.rs:59-83 | the built set, the chunk's data and its dirty marker after one chunk is built or demolished |
| Arena.ReplacedAreDirty | void-demo/src/arena.rs:59-83 | over every interleaving: the dirty marker of a chunk says whether it was built or demolished since it was streamed in |
| Seats.SeatsAreManned | void-demo/src/travel.rs:97-168 | the barrier kart by kart is the barrier pilot by pilot: neither form mentions whether anyone is ready, flying or under control |
| Seats.BecomeReadySeats | void-demo/src/race.rs:389-397 | a ready event keeps the boarding barrier if and only if the player has no kart in a round that has started, because the observer lifts the pilot out unconditionally |
| Seats.EndTeleportMarkers | void-demo/src/travel.rs:112-168 | the markers a finished teleport leaves: none, except that a boarding that timed out starts a new transfer to the lobby |
| Seats.EndTeleportFit | void-demo/src/travel.rs:123-167 | every outcome of every transfer leaves the player in a state the barrier allows |
| Seats.EndTeleportGrid | void/src/plugins/teleport.rs:358-392 | and keeps roster, karts and racer components consistent, whatever clients do |
| Seats.AdvanceTeleportSeats | void/src/plugins/teleport.rs:242-296 | a tick of the teleport barrier, with its time-out, keeps the boarding barrier for every player |
| Seats.EveryoneToLobbySeats | void-demo/src/travel.rs:90-95 | when nobody boards, sending everyone to the lobby empties and hides the kart of every ready player and starts its transfer, leaves players that never became ready and their seats as they are, and keeps the barrier |
| Seats.BoardAllSeats | void-demo/src/race.rs:601-620 | when construction ends, the pilot of every participating kart is boarding it and its kart is visible |
| Seats.JoinGridSeats | void-demo/src/race.rs:201-229 | joining in any phase, ready or not, keeps the barrier: the kart added is hidden, empty and outside the round |
| Seats.LeaveRaceSeats | void-demo/src/race.rs:429-434 | leaving in any phase takes the kart away and sends the pilot to the lobby |
| Seats.DisconnectSeats | void/src/network.rs:299-326 | a disconnect in any phase keeps the barrier if and only if the player was ready, so that the quit observer runs, or has no kart in the round |
| Paddock.Retain | void/src/entity/passengers.rs:28-32 | removal of a passenger keeps the others in order |
| Paddock.Grid.TakeOff | void-demo/src/travel.rs:61-77 | out of the seat, kart hidden, pilot airborne, and nothing else changes |
| Paddock.Grid.ToLobby | void-demo/src/travel.rs:79-88 | the same, and a teleport to the lobby started afresh |
| Paddock.Grid.AllToLobby | void-demo/src/travel.rs:90-95 | every ready player in query order |
| Paddock.Grid.BoardKart | void-demo/src/travel.rs:97-109 | the kart shown, the boarding transfer, control and teleport set |
| Paddock.Grid.OnArrived | void-demo/src/travel.rs:112-168 | the four branches of the observer, edited in place, are the step the invariants are about |
| Paddock.Grid.RunBarrier | void/src/plugins/teleport.rs:255-295 | one tick of every teleport in flight |
| Paddock.Grid.JoinOne | void-demo/src/race.rs:201-229 | the whole new grid after a join, or the old one when the pilot is on it, it is full, or the player is gone |
| Paddock.Grid.LeaveOne | void-demo/src/race.rs:255-267 | the pilot leaves the roster, its kart and racer component go; says whether it was there |
| Paddock.Grid.OnReady | void-demo/src/race.rs:389-397 | out of the seat first, then onto the grid |
| Paddock.Grid.OnLeave | void-demo/src/race.rs:429-434 | the lobby only for a player that was on the grid |
| Paddock.Grid.CancelOne | void/src/plugins/teleport.rs:358-392 | a teleport in flight ends as cancelled |
| Paddock.Grid.OnDisconnect | void-demo/src/race.rs:410-413 | quit for a player that was ready, then the entity goes with everything of it |
| RaceWorld.WorldAlways | void-demo/src/race.rs:578-634 | in every state any run of events reaches, the built set is the one the phase calls for, pending holds the rest, and the assertion of prepare has not fired |
| RaceWorld.PartitionWhileGenerating | void-demo/src/race.rs:594-600 | while generating, built and pending chunks partition the chunks of the circuit |
| RaceWorld.RoadIsTheStartOfTheCourse | void-demo/src/track.rs:101-107 | over every run, while chunks are built or demolished: every chunk with road comes before every one without, in the order of the course, and `total` counts them all; so the road grows from its start and is taken away from its end |
| RaceWorld.StackStep | void-demo/src/race.rs:578-634 | one chunk comes off the stack on every even tick and on no other event; the phase ends with the last one |
| RaceWorld.ChunksByTick | void-demo/src/race.rs:578-593 | between any two moments of one phase of building as many chunks as there were even ticks |
| RaceWorld.StepWorld | void-demo/src/race.rs:465-524 | each single event, launches included, keeps that |
| RaceWorld.CircuitIsComplete | void-demo/src/race.rs:601-622 | from Loading to Racing every column (x, z) of the world, found at its place of its chunk, is paved if and only if some point of the road is within HALF_WIDTH + 1 of its centre, and landscape otherwise |
| RaceWorld.LandscapeIsRestored | void-demo/src/race.rs:627-633 | in Lobby and Results every column (x, z) of the world is the terrain's again |
| Rosters.ReadyJoins | void-demo/src/race.rs:389-397 | a player that becomes ready flies, and is on the roster with a kart of its own from then on, unless the grid of eight is full; nobody else is touched |
| Rosters.LaunchOpens | void-demo/src/race.rs:465-515 | a launch is accepted from a player on the roster, for 1 to 20 laps, between rounds; then the next round begins, with that many laps, no results and the whole course to build, every kart whose pilot is connected takes part, and all ready players are on their way to the lobby; otherwise nothing changes |
| Rosters.InOrderAlways | void-demo/src/race.rs:201-267 | over every run pilots stand on the roster in the order in which their karts were made |
| RaceSeats.StepSeats | void-demo/src/race.rs:273-330 | any one event, a tick included, keeps the boarding barrier if and only if it is neither a ready event of a pilot of a round that has started, nor the disconnect of a player with a kart in the round that never became ready |
| RaceSeats.SeatsAlways | void-demo/src/race.rs:389-434 | over every run: the barrier has stood in all states so far if and only if all events so far were of that harmless kind |
| EarlyJoins.EarlyHasJoined | void-demo/src/race.rs:201-229 | over every run: a player on the grid that is not ready has sent a join before it was |
| EarlyJoins.PoliteIsHarmless | void/src/network.rs:445-464 | clients that report themselves ready once and join only after that cause harmless events only, whenever they come and go |
| RaceSeats.BoardingBarrier | void-demo/src/travel.rs:97-168 | in those states: boarding only in Loading and only for karts of the round; the pilot of every kart of the round is connected, and from Countdown on sits in it with nobody else; a kart is visible if and only if its pilot boards it or sits in it; a kart without a pilot is hidden and empty |
| RaceSeats.AllAboard | void-demo/src/race.rs:644-651 | when no pilot of the round is under transfer any more, every one of them sits |
| Unseated.ReadyBreaksTheBarrier | void-demo/src/race.rs:389-397 | runs that break the barrier, for every landscape and circuit: a second ready event during the countdown, and, for a client that joined before, its first |
| Unseated.KartWithoutPilot | void/src/network.rs:306-313 | and one more: a client that joins before it is ready and disconnects leaves its kart in the round, without a pilot |
| Control.EndTeleportHeld | void-demo/src/travel.rs:123-167 | a boarding that is confirmed leaves the pilot in its seat, under the server's control and not airborne; a transfer to the lobby that ends, however it ends, leaves nobody under control |
| Control.BoardingDecided | void/src/plugins/teleport.rs:255-295 | a boarding is decided by its tick: after 600 ticks it is too late, even for a client that confirms now; before, a confirmed pilot sits, and another one waits on |
| Control.CancelledIsOver | void-demo/src/travel.rs:142-168 | a cancelled teleport is over and no other begins: nobody is under control any more, and a pilot that was boarding is out of the round and flies |
| Control.StepSteered | void-demo/src/travel.rs:61-168 | any one event keeps who is held and who flies; it leaves somebody under control for nothing if and only if it is a ready event of a player that sits |
| Control.SteeredAlways | void-demo/src/race.rs:389-397 | over every run, and there the exact condition over all events so far |
| Control.WhoIsControlled | void-demo/src/travel.rs:97-168 | over every run: whoever sits is under control and does not fly; a ready player flies if and only if it does not sit; whoever is being teleported is under control; and, if no ready event so far was of a player that sat, nobody else is |
| RaceLiveness.StepBudget | void-demo/src/race.rs:567-633 | a computable number of ticks left: every tick of a round uses up at least one, no other event of any player adds any |
| RaceLiveness.BudgetRunsOut | void-demo/src/race.rs:753-758 | over any stretch of a run in progress the ticks taken and the ticks left add up to at most the ticks left at its start |
| RaceLiveness.ReturnsToResults | void-demo/src/race.rs:625-632 | a run with more ticks than that from a round in progress has a later state in Results, whoever leaves, joins or quits |
| RaceLiveness.LaunchBudget | void-demo/src/race.rs:497-515 | at launch: at most two ticks a chunk for construction and again for demolition, the teleport time-out, the countdown and the time limit |
| RaceLiveness.CountdownIsExact | void-demo/src/race.rs:650-668 | the phase stays Countdown, with start unchanged, for all ticks before start |
| RaceLiveness.CountdownStep | void-demo/src/race.rs:654-668 | and ends on the tick start, not earlier or later |
| RaceLiveness.CountdownBegins | void-demo/src/race.rs:636-652 | it begins in the tick that leaves no pilot of the round under transfer, and then a hundred ticks are left |
| RaceLiveness.TimedAlways | void-demo/src/race.rs:636-668 | transfers of the round age together and never outlive the time-out; the clock never passes a phase's end |
| RaceLiveness.BarrierClocked | void/src/plugins/teleport.rs:258-266 | one pass of the barrier ages every boarding by exactly a tick or ends it |
| RaceScores.SortIsStable | void-demo/src/race.rs:731 | the sort by time orders the results, loses none, and keeps entries of one time in their order |
| RaceScores.TallySettles | void-demo/src/race.rs:696-752 | the loop that sorts after each finisher gives what one sort at the end would, and counts exactly the karts still on the road |
| RaceScores.RoundEnds | void-demo/src/race.rs:753-758 | the round ends if and only if no kart is unfinished, or twelve thousand ticks and four thousand a lap have gone by since the start |
| Times.ScoresAreTimed | void-demo/src/race.rs:722-731 | over every run: the time of a new score is the tick in which its kart passed the last gate, less the tick of the start, plus RESET_PENALTY for every rescue its pilot asked for while the kart was racing, counted from the events; the kart carries the same time |
| Times.FinishIsScored | void-demo/src/race.rs:696-751 | over every run: a kart without a time gets one in exactly the ticks of the race that find it past its last gate, and then its pilot's score is on the list |
| Times.PenaltyAlways | void-demo/src/race.rs:447-457 | over every run: the penalty of a kart in the round counts exactly those rescues |
| Times.StepGoes | void-demo/src/race.rs:670-751 | what any event does to a kart on the course: gates, laps, penalty and time |
| Times.LapsAlways | void-demo/src/race.rs:162-167 | over every run: a lap for every eight gates; the racer's lap began with the last of them; its best lap is the shortest of the times between them, the first one from the start |
| Times.ScoresAreLaps | void-demo/src/race.rs:696-751 | a new score is that of a kart that has just done all laps of the round, and its time is that of the laps together, with the penalties |
| RaceScores.ScoresAlways | void-demo/src/race.rs:162-167 | over every run results are in order and the unsigned subtraction of a lap time never wraps |
| RaceServer.SortByTime | void-demo/src/race.rs:731 | insertion sort gives the stable sort |
| RaceServer.Server.Launch | void-demo/src/race.rs:465-515 | all refusals and, otherwise, the whole new state: karts enlisted, everyone flying, track replaced, stack filled |
| RaceServer.Server.Rescue | void-demo/src/race.rs:447-457 | the penalty is added exactly for a racing kart |
| RaceServer.Server.ConstructSystem | void-demo/src/race.rs:578-634 | one chunk off the stack every other tick; with the last one, boarding or Results |
| RaceServer.Server.LoadSystem | void-demo/src/race.rs:636-652 | Countdown starts if and only if no participant is under transfer |
| RaceServer.Server.CountdownSystem | void-demo/src/race.rs:654-668 | Racing starts when no tick remains |
| RaceServer.Server.DriveSystem | void-demo/src/vehicle.rs:76-84 | only racing karts move, in Racing only, and of these exactly the ones crossing their gate count it |
| RaceServer.Server.ScoreKart | void-demo/src/race.rs:697-751 | gates, laps, finish and result of one kart |
| RaceServer.Server.RacingSystem | void-demo/src/race.rs:670-786 | the loop over the karts, then the end of the round |
| RaceServer.Server.RunTick | void-demo/src/race.rs:292-316 | the barrier and the chain of systems in its order take exactly the step the invariants are proved for |
| StateIds.StateIdsAreABijection | void-data/build.rs:881-945 | valuations and the ids of the block correspond one to one; from_state_id is None exactly outside the range |
| StateIds.OnlyIfConsistent | void-data/build.rs:840-849 | the two accessors are inverse only if the range is as long as the product of the cardinalities |
| StateIds.StateIdsAreOrdered | void-data/build.rs:803-820 | ids are ordered by the first property that differs: true before false, numbers and names in their order |
| StateIds.DefaultIsFromItsId | void-data/build.rs:856-879 | DEFAULT, divided out from the left, is the state of the default id, read from the right |
| StateIds.BothWays | void-data/build.rs:859-936 | division by strides from the left and by cardinalities from the right read the same digits |
| StateIds.OrdinalIsLexicographic | void-data/build.rs:881-896 | the weighted sum of indices compares as the index lists do |
| StateIds.ClassifyIsFaithfulWhen | void-data/build.rs:744-762 | the emitted indices stand for the listed values if and only if true is listed first, or the numbers increase, at most 256 of them, and the largest is one less than their count, or the values are names |
| StateIds.Strides | void-data/build.rs:814-820 | the loop from the right leaves the product of the cardinalities to the right |
| StateIds.StateId | void-data/build.rs:886-896 | the emitted sum, term by term |
| StateIds.State | void-data/build.rs:904-943 | the emitted reader, fastest property first |
| Tags.ResolvesWhatIsReachable | void-data/build.rs:1095-1117 | on every graph, cyclic or not, the result is exactly the entries some chain of references leads to |
| Tags.Sound | void-data/build.rs:1104-1113 | with any tags on the stack, whatever is returned is reachable |
| Tags.FollowsSimple | void-data/build.rs:1100-1102 | every simple chain avoiding the tags on the stack is followed |
| Tags.Resolver.Run | void-data/build.rs:1095-1117 | the recursion over one shared set terminates, leaves the set as it found it, and returns what is resolved in order and without duplicates |
| Tags.OneList | void-data/build.rs:1116 | there is one such list, whatever order the entries came in |
| Shapes.Group | void-data/build.rs:1035-1064 | the grouping loop covers all states of a block, with neighbouring arms of different shapes |
| Shapes.Emit | void-data/build.rs:1032-1067 | looking an id up in the emitted match gives the shape of its state, and the default for ids of no block |
| Shapes.FewestArms | void-data/build.rs:1035-1064 | no table of arms of one shape each is shorter |
| VarInt.RoundTrip | void-codec/src/primitives/vari.rs:6-49 | any 32- or 64-bit integer, followed by anything, is read back exactly, from at most 5 or 10 bytes |
| VarInt.EncoderIsCanonical | void-codec/src/primitives/vari.rs:26-49 | of all byte strings the decoder accepts for a value the encoder writes the only shortest one |
| VarInt.WriteVar | void-codec/src/primitives/vari.rs:7-23 | the loop writes the LEB128 groups of the pattern |
| VarInt.Parse | void-codec/src/primitives/vari64.rs:26-49 | the loop, with its check of the last byte, is the reading the laws are about |
| Wire.TakeIntEncoded | void-codec/src/primitives/integers.rs:3-70 | a big-endian integer of any width and sign is read back, leaving what follows |
| Wire.TakeVarEncoded | void-codec/src/primitives/vari.rs:26-49 | the same for a variable-length integer taken from the decoder |
| Wire.BigEndianDigits | void-codec/src/primitives/integers.rs:3-70 | the most significant byte comes first |
| Wire.TakeSplits | void-codec/src/lib.rs:95-102 | what is taken and what remains make up the input, or nothing is taken and its end is reported |
| Wire.Decoder.TakeBytes | void-codec/src/lib.rs:95-102 | the first bytes and what remains, or an error that takes nothing |
| Wire.Decoder.ReadVarInt | void-codec/src/primitives/vari.rs:27-48 | the value, or how far the input was read before the error |
| Wire.Decoder.Length | void-codec/src/lib.rs:128-143 | a checked length, with both of its errors |
| Wire.Decoder.ChargeForElements | void-codec/src/lib.rs:145-166 | each limit and its error; a refused charge is not added |
| Wire.Decoder.ChargeForAllocation | void-codec/src/lib.rs:168-182 | the same for bytes |
| Lengths.EvaluatorsAgree | void-codec-macros/src/attrs.rs:6-59 | with overflow checks on, both evaluations of a length succeed if and only if every subexpression is non-negative and fits and no remainder is taken; then they agree |
| Lengths.WrittenLengthIsRead | void-codec-macros/src/attrs.rs:31-59 | a length the encoder computes is the one the decoder computes under exactly that condition |
| Lengths.WrappingDisagrees | void-codec-macros/src/encode.rs:41 | without overflow checks, 200 + 100 in one byte is 44 to the encoder and 300 to the decoder |
| Lengths.NegativeStepDisagrees | void-codec-macros/src/attrs.rs:48-52 | a negative difference on the way is an error to the decoder only |
| Lengths.QuotientTruncates | void-codec-macros/src/attrs.rs:31-59 | division in both drops the fraction: the quotient is the one number that leaves a remainder smaller than the divisor, with the sign of the dividend |
| SchemaLaws.RoundTrip | void-codec-macros/src/decode.rs:15-87 | for every schema: decoding an encoded value followed by any bytes gives back the value and leaves exactly those bytes if and only if the limits allow what the value costs |
| SchemaLaws.FieldsBack | void-codec-macros/src/decode.rs:15-74 | the fields of a struct are decoded back one after the other, later lengths from earlier fields |
| SchemaLaws.TaggedBack | void-codec-macros/src/decode.rs:109-154 | a tagged enum is decoded back to its variant, identifiers being distinct |
| SchemaInputs.RemainingIsLast | void-codec/src/primitives/fixed_length.rs:70-87 | when `remaining` only ever stands last, also through nesting, nothing is written behind it |
| SchemaInputs.DisciplinedRoundTrip | void-codec-macros/src/encode.rs:13-90 | the round trip for every codec that keeps this discipline |
| Charges.AnyInput | void-codec/src/lib.rs:95-182 | for every input, every schema (recursive ones too) and every limits: what remains is a suffix, the depth is restored on success and on error, and both totals have grown by exactly the charges accepted before the value or the error, within their limits; with a value these are its cost |
| Charges.CallLedger | void-codec/src/lib.rs:145-182 | the running totals against a sum of the accepted charges that never looks at the totals, error paths included |
| SchemaInputs.ReprIsReadBack | void-codec-macros/src/decode.rs:197-213 | a variant of a repr enum is read back if and only if its discriminant survives the casts |
| SchemaInputs.SurvivesExactly | void-codec-macros/src/encode.rs:186-198 | which discriminants those are, for each integer type and form |
| Canonical.EncodingIsLeast | void-codec/src/primitives/containers.rs:4-84 | for every schema: of all byte strings that decode to a value none is shorter than what the encoder writes, and of those as long none has a smaller byte anywhere; so flags and option markers are 0 or 1, and every length and identifier is written in full shortness |
| Canonical.DiscIsLeast | void-codec-macros/src/decode.rs:197-213 | the same for discriminants, unless a negative one is written as a wider varint |
| Canonical.CrookedIsLonger | void-codec-macros/src/encode.rs:186-198 | in that case some shorter bytes decode to it: for each such discriminant, which |
| Prefixes.DecisionsAreFinal | void-codec/src/lib.rs:95-182 | for every schema, limits and input: what the decoder made of a type that cannot take all that is left, value or error, it makes of every longer input, unless it had come to the end |
| Prefixes.CutShort | void-codec/src/lib.rs:95-116 | the encoding of a value the limits allow, cut short anywhere, is an unexpected end of input and nothing else |
| Prefixes.PrefixFree | void-codec-macros/src/decode.rs:15-87 | so no encoding is the beginning of another one |
| Prefixes.ErrorsAreHonest | void-codec/src/lib.rs:128-182 | for every schema, limits and input: a limit reported as exceeded is the configured one of its kind, and what was asked for is more |
| Prefixes.FlagsAreLoose | void-codec/src/primitives/booleans.rs:9-13 | every byte is read as a flag, or as the marker of an option, and all but 0 say yes |
| Prefixes.VarErrors | void-codec/src/primitives/vari.rs:26-49 | the end of input is reported for a number if and only if some more bytes would complete it, and otherwise its length |
| Prefixes.BadLengths | void-codec/src/lib.rs:128-143 | a negative length is invalid and one over its limit exceeds it, before anything else is looked at |
| Prefixes.BadText | void-codec/src/primitives/containers.rs:44-60 | a text that is no UTF-8 is refused once it has been read |
| Prefixes.UnknownVariant | void-codec-macros/src/decode.rs:109-154 | an identifier of no variant is refused, and named in the error if it is a byte |
| Prefixes.UnknownDiscriminant | void-codec-macros/src/decode.rs:197-213 | a discriminant of no variant is refused |
| Packets.BothSides | void-codec-macros/src/encode.rs:35-58 | the values whose lengths are tame are those the encoder does not panic on and the decoder would accept; with overflow checks on there are no others |
| Packets.WrittenIsReadBack | void-codec-macros/src/decode.rs:35-52 | whatever the encoder writes without panicking is decoded back if and only if the decoder computes the lengths that were written, the vectors fit their prefixes and the limits allow it, with or without overflow checks; with them, if and only if the lengths are tame |
| Packets.Reencoded | void-codec/src/lib.rs:104-126 | a value decoded from any bytes is decoded again from its own encoding, on which the encoder panics if and only if a length is not tame |
| Packets.WrappingMayRecover | void-codec-macros/src/attrs.rs:15-21 | why the converse needs overflow checks: two wraps can cancel |
| Generated.EncodeValue | void-codec/src/primitives/containers.rs:4-73 | appending piece by piece writes the encoding of the value, unless a length check fails |
| Generated.EncodeOne | void-codec-macros/src/encode.rs:22-76 | one field, with the length check that panics |
| Generated.EncodeList | void-codec/src/primitives/fixed_length.rs:5-21 | a loop over items, stopping at the first panic |
| Generated.DecodeCall | void-codec/src/lib.rs:104-116 | one level down and back up, on success and on error |
| Generated.DecodeWith | void-codec/src/primitives/containers.rs:13-84 | the decoder advanced in place takes the step of the interpreter, error and rest included |
| Generated.DecodeCounted | void-codec/src/primitives/fixed_length.rs:40-59 | both charges, then as many items |
| Generated.DecodeList | void-codec/src/primitives/containers.rs:32-35 | the loop pushes the items in order and stops at the first error |
| Generated.DecodeStruct | void-codec-macros/src/decode.rs:78-87 | field by field, lengths from the fields before |
| Slots.SlotRoundTrip | void-protocol/src/slot.rs:247-273 | a slot is decoded back if and only if the limits allow it, no component is raw, and it is the one empty slot or not empty; then the bytes behind it are left |
| Slots.DecodedSlots | void-protocol/src/slot.rs:96-111 | no decoded slot holds a raw component, and no decoded slot is empty but the one |
| Slots.PatchBack | void-protocol/src/slot.rs:129-210 | a component patch under the decoder's budgets, both lists charged before either is read |
| SlotInputs.AnySlot | void-protocol/src/slot.rs:152-209 | for every input and every limits: what remains is a suffix, the depth is restored, and both totals have grown by exactly the charges accepted before the slot or the error; with a slot these are its cost |
| SlotInputs.RefusedSecondList | void-protocol/src/slot.rs:168-169 | when the second list is refused, the first stays charged and nothing of it is read |
| SlotInputs.SlotReencoded | void-protocol/src/slot.rs:247-273 | a slot decoded from any bytes is decoded again from its own encoding |
| SlotDecoder.PushPatch | void-protocol/src/slot.rs:130-143 | the loops append both lengths, the components and the ids |
| SlotDecoder.NextPatch | void-protocol/src/slot.rs:153-209 | the loops of the decoder, charges and errors included |
| SlotDecoder.NextSlot | void-protocol/src/slot.rs:259-272 | a slot off the decoder |
| SlotDecoder.PushSlot | void-protocol/src/slot.rs:248-255 | a slot behind the buffer |
| Vectors.BlockRoundTrip | void-protocol/src/types.rs:13-43 | any position comes back as its low 26, 26 and 12 bits, so unchanged if and only if it is within them |
| Vectors.EveryWordIsAPosition | void-protocol/src/types.rs:22-43 | every 64-bit word is the packing of the position it unpacks to |
| Vectors.VecRoundTrip | void-protocol/src/types.rs:86-135 | any three floats, clamped: the scale is recovered exactly through two bits and the varint, each coordinate within a 32766th of it, and the first byte is 0 only for vectors below the threshold |
| Vectors.ErrorBound | void-protocol/src/types.rs:65-110 | every vector comes back within ceil(max)/32766 in each coordinate: the threshold below which zero is written, the double nearest to 1/32766, lies below it |
| Vectors.StepError | void-protocol/src/types.rs:76-83 | packing and unpacking a coordinate moves it by at most a 32766th |
| Vectors.SanitizedIsNearest | void-protocol/src/types.rs:68-74 | what is sent for a coordinate is the nearest number that can be, the outermost one for an infinity, and zero for what is no number |
| VectorCodec.BlockIsReadBack | void-protocol/src/types.rs:22-43 | a position is decoded from its encoding if and only if it is in range |
| VectorCodec.NextBlock | void-protocol/src/types.rs:23-42 | sign extension in place is the unpacking |
| VectorCodec.PushBlock | void-protocol/src/types.rs:13-21 | the eight bytes appended for a position |
| VectorCodec.PushVec | void-protocol/src/types.rs:87-110 | the bytes appended for a vector |
| VectorCodec.NextVec | void-protocol/src/types.rs:114-134 | the decoder advanced over a vector, with its errors |
| Frames.ReceivedAsSent | void-net/src/socket.rs:164-289 | for any sends, refused ones in between, and any splitting into reads: exactly the accepted bodies arrive, in order and with a clean end, if and only if each is non-empty and within the reader's limit; otherwise a prefix of them arrives |
| Frames.ReceiveWritten | void-net/src/socket.rs:191-231 | one frame in front of any bytes: received whole, or refused for being empty or too large |
| Frames.RefusedAtBothEnds | void-net/src/socket.rs:259-268 | the sender refuses exactly the bodies over the limit, those a receiver with that limit refuses for their size |
| Frames.FrameCutShort | void-net/src/socket.rs:166-231 | cut short anywhere, a frame is told from a closed connection, and the error says how much of the prefix or of the body has come |
| Frames.HeaderIsMinimal | void-net/src/socket.rs:270-284 | no shorter prefix is read as the length, and no other of that size |
| Frames.BuildHeader | void-net/src/socket.rs:270-284 | the loop fills the front of the header buffer with the length's bytes |
| Frames.Writer.WriteFrame | void-net/src/socket.rs:259-289 | header and body leave without a gap, or nothing does |
| Frames.Writer.Send | void-net/src/socket.rs:246-257 | the body behind five reserved bytes, whatever the buffer held |
| Frames.Reader.ReadPrefix | void-net/src/socket.rs:166-189 | one byte at a time up to the end of the prefix |
| Frames.Reader.ReadBody | void-net/src/socket.rs:215-227 | as many reads as it takes |
| Frames.Reader.ReceiveFrame | void-net/src/socket.rs:165-232 | the frame, or the error the bytes call for |
| Frames.SendAll | void-net/src/socket.rs:246-289 | a refused send leaves no trace on the stream |
| Frames.ReceiveAll | void-net/src/socket.rs:165-232 | all frames up to the first failure, however the stream portions its bytes |
| Standings.RankingIsJustified | void-demo/src/sidebar.rs:198-254 | after sorting and settling: the same rows, finished before racing and in order of their times, and two racing rows out of progress order are less than the hysteresis apart and their players first stood that way round in the rows shown before |
| Standings.RankingIsStable | void-demo/src/sidebar.rs:234-254 | no two neighbours are left that are that close and stood the other way round before, so settling again changes nothing |
| Standings.InsertedKeepsPairs | void-demo/src/sidebar.rs:240-253 | whatever held of all pairs in order and is established by every swap holds of all pairs afterwards |
| Standings.SortSorts | void-demo/src/sidebar.rs:198-203 | the sort is a stable one: finished first, then by key, the same entries, and those that tie in the order they had |
| Standings.MoveUp | void-demo/src/sidebar.rs:241-252 | the inner loop on the array: the entry rises past those it may pass, the rest stays |
| Standings.InsertInPlace | void-demo/src/sidebar.rs:240-253 | the two nested loops on the array |
| Standings.Board.Publish | void-demo/src/sidebar.rs:198-220 | the rows shown are the settled ranking; the version moves on if and only if they changed |
| Standings.Board.Show | void-demo/src/sidebar.rs:206-220 | the same for the result lists |
| Displays.KeyframeMirrorsRequests | void-demo/src/displays.rs:145-205 | after a keyframe the living entities are exactly one for each key asked for, each showing the frame asked for last |
| Displays.EntitySurvives | void-demo/src/displays.rs:146-176 | an entity survives a keyframe if and only if its key is asked for again and no request for it, however many there are, changes the kind of model or jumps from the one before |
| Displays.SmoothOnce | void-demo/src/displays.rs:152-156 | when no key is asked for twice this compares the old frame with the new one |
| Displays.JumpIsFar | void-demo/src/displays.rs:215-218 | a jump is a move of more than six blocks in some direction |
| Displays.NothingLeaks | void-demo/src/displays.rs:226-247 | over any run of keyframes and clears the scene has one entity per key and no other |
| Displays.ClearLeavesNothing | void-demo/src/displays.rs:207-212 | outside a race nothing is left alive |
| Displays.ApplyConsistent | void-demo/src/displays.rs:146-193 | each request keeps every key's entity, old or queued, undoomed and showing its frame, also when one key is asked for twice |
| Displays.Stage.ApplyOne | void-demo/src/displays.rs:146-193 | writing only what differs makes the entity show the whole frame |
| Displays.Stage.FinishFrame | void-demo/src/displays.rs:195-205 | keys not asked for go with their entities |
| Displays.Stage.ClearAll | void-demo/src/displays.rs:207-212 | all keys go with their entities |
| Displays.Stage.RunKeyframe | void-demo/src/displays.rs:226-247 | the requests of a keyframe in order, then the end of it |
| Gates.NoGateIsSkipped | void-demo/src/kart.rs:250-258 | over any drives from the grid the counter rises by at most one a call, and to have it at g + 1 a kart has travelled at least g - 1 eighths of a turn |
| Gates.DrivePaid | void-demo/src/kart.rs:398-403 | the stronger invariant behind it: gates counted, and the way from the last one, are paid for by phase travelled |
| Gates.GatesAreApart | void-demo/src/kart.rs:400 | between two neighbouring gates lies an eighth of a turn, whichever way one goes |
| Gates.CircleTriangle | void-demo/src/kart.rs:399 | distances around the course obey the triangle inequality |
| Gates.ProgressIsUnique | void-demo/src/kart.rs:193-200 | progress is the one value that agrees with the position on the course and lies within a lap below the next gate |
| Gates.ProgressStep | void-demo/src/kart.rs:193-200 | a call of drive changes progress by exactly the move's share of a lap if and only if the move neither overshoots a crossed gate by a sector nor backs out of the lap below the next gate |
| Gates.EveryGateIsCounted | void-demo/src/kart.rs:398-403 | over any drives that do neither and do not go back, progress is the way travelled, in laps, and the counter is ahead of it: no gate that was passed is left uncounted |
| Gates.Kart.DriveBy | void-demo/src/kart.rs:248-269 | a step taken if it ends between the guardrails, with the gate looked for between the two projections; a kart on the road stays on it |
| Circuits.ResultsAreDriven | void-demo/src/race.rs:670-751 | over every run of the round machine, whatever is steered, rescued, joined, left or cancelled: a new score belongs to a pilot whose kart has travelled at least 8 laps - 1 sectors of an eighth of a turn, less 0.015 each, since it was put on the grid |
| Circuits.TracksAlways | void-demo/src/kart.rs:184-195 | in every state the counter of a kart of the round is the one its drive along the course gives it, and is paid for by phase travelled, a rescue bringing it forward by no more than 0.015 a gate |
| Circuits.DrivingTracks | void-demo/src/vehicle.rs:76-92 | the gates a tick counts are the gates crossed on the course, after the barrier has taken timed-out karts out of the round |
| Counters.ConstructPlaces | void-demo/src/race.rs:601-620 | construction ends with every kart of the round whose pilot is connected on the grid, with no penalty, time or lap, and leaves the karts of a round under way alone |
| Circuits.AnySteering | void-demo/src/vehicle.rs:76-84 | however the karts are steered, there is a tick that carries it out |
| Lightning.DelaysAreDistinct | void-demo/src/items.rs:489-490 | up to eight rivals are struck at pairwise different delays, whether or not the 16-bit sum wraps |
| Lightning.NinthRivalCollides | void-demo/src/items.rs:489-490 | with nine it can fail |
| Lightning.StruckThreeTimes | void-demo/src/items.rs:536-580 | a victim racing on and not cast on again is struck exactly at cast + 1 + delay + 6n for n = 0, 1, 2, the first time with the full effect, then the storm is over |
| Lightning.EveryStrike | void-demo/src/items.rs:536-580 | from a clear sky, whatever is cast and whoever stops racing: a kart is struck in a tick if and only if it races in it and the last cast on it took hold 1 + delay + 6n ticks before, n < 3, with the kart racing ever since; and no storm is left over a kart that does not race |
| Lightning.CastTakesHold | void-demo/src/items.rs:491-496 | a cast takes hold if and only if no storm over the kart ends on the same tick, since the removal is queued behind it |
| Lightning.OneCast | void-demo/src/items.rs:482-580 | end to end: after one cast on up to eight rivals, over none of whom a storm just ends and who race on without another cast, each is struck at exactly three ticks, no two of them for the first time at the same tick, and after thirty ticks no storm is left |
| Lightning.RivalIsStruck | void-demo/src/items.rs:488-497 | the same for one rival, whatever hangs over the others |
| Lightning.Field.AgeAll | void-demo/src/items.rs:539-559 | what every storm becomes, whom it strikes and which are over |
| Lightning.Field.Storms | void-demo/src/items.rs:536-580 | casts, ageing and removals of a tick, kart by kart |
| ChunkFormat.ChunkRoundTrip | void-world-io/src/format.rs:55-138 | a written chunk reads back with its place, sections, palettes, heightmap, light and hosted block entities |
| ChunkFormat.EntityBack | void-world-io/src/format.rs:147-179 | a block entity comes back whole, also when its payload repeats the names of the metadata |
| ChunkFormat.EntitiesSurvive | void/src/world/chunk_entity.rs:129-149 | all block entities survive if and only if each is hosted by its block |
| ChunkFormat.PaletteBack | void-world-io/src/format.rs:216-274 | the three palette forms are told apart by their tags |
| ChunkFormat.SectionsBack | void-world-io/src/format.rs:183-214 | the list of sections comes back, empty or not |
| ChunkFormat.LightBack | void-world-io/src/format.rs:293-327 | masks as unsigned words, arrays as byte lists, empty lists included |
| ChunkFormat.FullSkyIsFull | void-protocol/src/clientbound/play/chunk.rs:580-595 | the light a chunk gets when none is stored: in each of the 26 light sections 4096 sky lights of 15, no block light, and the masks say so |
| ChunkFormat.FlatWithoutHeights | void-world-io/src/format.rs:286-291 | and the heights: 256 zeros of nine bits, seven to a word |
| ChunkFormat.OtherDimension | void-world-io/src/format.rs:94-97 | a tree of an unknown dimension is refused |
| ChunkFormat.EntityAccepted | void-world-io/src/format.rs:147-179 | a tree is read as a block entity if and only if it begins with its four metadata tags in order and names a kind |
| ChunkFormat.LocalBack | void/src/world/chunk_entity.rs:35-56 | a local position survives the way over world coordinates, negative chunks included |
| Persistence.CleanIsStored | void-world-io/src/systems.rs:28-99 | over every run, from any store and whatever writes fail, a chunk with neither the dirty marker nor a queued update is what load-or-generate would return, up to light when light is regenerated |
| Persistence.WhatIsHeld | void/src/world/chunk_entity.rs:105-160 | over every run: a chunk is loaded once it has been streamed in or edited, its blocks, heights and light are those it came with, and each place of it holds what the events said last of that place of that chunk, a set or a removal of one place touching no other |
| Persistence.OnlyChangedAreMarked | void/src/plugins/block_entity.rs:29-55 | over every run only chunks that were changed are marked or queued |
| Persistence.SetUncovers | void/src/world/chunk_entity.rs:105-125 | a block entity set on a stored chunk leaves it without the marker, and still stored if and only if the very same entity was there |
| Persistence.RemoveUncovers | void/src/world/chunk_entity.rs:150-160 | one removed leaves it without the marker and no longer stored |
| Persistence.ReadChunkIsSound | void-world-io/src/format.rs:94-138 | whatever tree is read back, the chunk is one the engine could hold |
| Persistence.StreamOk | void/src/world/loader.rs:33-49 | loading or generating a chunk keeps that |
| Persistence.SavedLoads | void-world-io/src/store.rs:39-74 | a saved chunk loads as itself |
| Persistence.ExitSavesEverything | void-world-io/src/systems.rs:83-99 | after an exit only chunks whose write failed are still marked |
| Persistence.SurvivesRestart | void-world-io/src/store.rs:39-56 | a server started anew on the store after an exit without errors streams a chunk in as it was if and only if it was marked or already stored |
| Persistence.WorldSurvives | void/src/plugins/block_entity.rs:29-55 | so the whole world survives if and only if every chunk with queued updates is marked or already stored, as after the sync |
| Persistence.LostOnExit | void-world-io/src/systems.rs:83-99 | a run that loses a block entity set between the sync and the exit, for every generator with a block that hosts it |
| Persistence.SomeHost | void/src/world/block_entity.rs:459-482 | there is such a generator |
| Persistence.PeriodicFlush | void-world-io/src/systems.rs:54-76 | a flush happens exactly when the interval has run out, and saves as many of the dirty chunks whose write succeeds as its limit allows |
| Persistence.SavesTheFirst | void-world-io/src/systems.rs:28-51 | of the chunks whose write succeeds it saves the first of the query |
| Persistence.Server.SetBlockEntity | void/src/world/block_entity.rs:459-482 | a refusal, or the chunk with the entity and its queue, and what was replaced |
| Persistence.Server.RemoveBlockEntity | void/src/world/chunk_entity.rs:150-160 | the entity removed, the chunk queued |
| Persistence.Server.SyncBlockEntities | void/src/plugins/block_entity.rs:29-38 | the loop marks every chunk with a queue and empties it |
| Persistence.Server.FlushDirty | void-world-io/src/systems.rs:28-51 | the loop saves in query order up to the limit; exactly the saved chunks lose their marker, and only they are written |
| Persistence.Server.SaveDirtyChunks | void-world-io/src/systems.rs:54-76 | ticker, store and markers after a tick |
| Persistence.Server.FlushOnExit | void-world-io/src/systems.rs:83-99 | store and markers after an exit |

## Left out

- Floating point: coordinates, phases, progress and vectors are reals, without rounding or signed zeros; distances to the road are compared squared.
- The shape of the spline, terrain, trees and deck materials: a track is any polyline with growing distances, landscape and deck are parameters of `Arena`.
- Degenerate segments: `TrackIndex` assumes that consecutive nodes differ, which the sampling loop gives up to rounding.
- The schedule: a system or observer is one step whose commands take effect at its end, and queries visit players in the order they connected, karts and chunks in a fixed order.
- The inside of the teleport barrier (chunk preload, ping and pong): a client confirms in some tick or the time-out passes; restoring control at the end of a teleport is overwritten by every branch of the observer that follows.
- Steering, the push of collisions and the power-ups other than lightning: `Gates` takes the velocity of a step as an input, `Circuits` the phase each step leads to. A rescued kart is taken to project within 0.015 of its last gate, which `CentreProjectsBack` gives unless an earlier segment passes through the same point.
- RaceServer.Server.DriveSystem: which karts cross a gate is an input of the round machine; `Circuits` determines it by where the karts are.
- Chat, sounds, particles, boss bars, the action bar and the session records (`best`, `record`): presentation, or easy members.
- Headings, `surface_height_at` and the offset of `point`: easy members.
- Failing allocations (`try_reserve_exact`), socket and file errors other than those of a write, and the shrinking of the frame buffer.
- Fields with the `json` attribute, the NBT reader and UTF-8 checks: library code. NBT is a parameter of `Slots` whose own round trip and cost are assumed (`NbtLaw`), and that it keeps to the front of its input and to the limits (`NbtKeeps`), UTF-8 validity a predicate of a `Codec`. Floats and UUIDs are fixed numbers of bytes.
- Proc-macro tokens: a schema is what the attributes say, a length expression is built of literals, field names, the five arithmetic operators and parentheses; other operators, which the decoder rejects like a remainder, are not distinguished.
- Overflow of 32-bit state ids and strides: ids are unbounded integers in `StateIds`; the byte that holds the largest number of a property is modelled.
- JSON loading, name conversion and text emission in void-data/build.rs: the emitted accessors are modelled, not their text.
- Region files and compression: a store maps places to trees, and which writes fail is an input.
- Persistence.CleanIsStored: changes of blocks leave a chunk the engine can hold, with sound palettes and hosted block entities; how a chunk is edited is not modelled.
- The text of the sidebar and tab list; the keys of the rows (progress, grid slot, time) are inputs of `Standings`.
