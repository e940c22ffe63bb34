/** Players, karts and the markers that move between them: the grid of
    void-demo/src/race.rs, the transfers of void-demo/src/travel.rs, and the
    parts of the engine's teleport barrier and passenger list they rely on.

    Entities are natural numbers, never reused. A system or observer is one
    step; the commands it queues take effect at its end. */
module Pilots {
  import opened Options

  const GRID := 8
  const TIMEOUT := 600

  datatype Transfer = ToLobby | Boarding

  datatype Outcome = Confirmed | TimedOut | Cancelled

  type gate = x: nat | x > 0 witness 1

  datatype Kart = Kart(
    pilot: nat,
    participant: bool,
    finished: Option<nat>,
    nextGate: gate,
    penalty: nat,
    hidden: bool,
    seats: seq<nat>)
  {
    predicate Racing() {
      participant && finished.None?
    }
  }

  datatype Racer = Racer(gate: gate, kart: nat, lapStart: nat, bestLap: Option<int>)

  /** The components of a player entity; `teleport` is the age in ticks of the
      teleport in flight, `controlled` the server-controlled position marker. */
  datatype Player = Player(
    ready: bool,
    airborne: bool,
    controlled: bool,
    transfer: Option<Transfer>,
    teleport: Option<nat>,
    racer: Option<Racer>)

  /** `order` lists the player entities in the order queries visit them. */
  datatype Crew = Crew(
    players: map<nat, Player>,
    order: seq<nat>,
    roster: seq<nat>,
    karts: map<nat, Kart>,
    nextPlayer: nat,
    nextKart: nat)

  function Without(s: seq<nat>, p: nat): (r: seq<nat>)
    ensures forall x :: x in r <==> x in s && x != p
    ensures p !in s ==> r == s
    ensures |r| <= |s|
  {
    if s == [] then [] else
      var rest := Without(s[1..], p);
      assert s == [s[0]] + s[1..];
      if s[0] == p then rest else [s[0]] + rest
  }

  predicate Distinct(s: seq<nat>) {
    forall i, j :: 0 <= i < j < |s| ==> s[i] != s[j]
  }

  lemma {:induction false} WithoutDistinct(s: seq<nat>, p: nat)
    requires Distinct(s)
    ensures Distinct(Without(s, p))
  {
    if s != [] {
      TailDistinct(s);
      WithoutDistinct(s[1..], p);
    }
  }

  lemma TailDistinct(s: seq<nat>)
    requires Distinct(s) && s != []
    ensures Distinct(s[1..]) && s[0] !in s[1..]
  {
    forall i, j | 0 <= i < j < |s[1..]| ensures s[1..][i] != s[1..][j] {
      assert s[i + 1] != s[j + 1];
    }
  }

  /** Removes the first occurrence of p. */
  function RemoveFirst(s: seq<nat>, p: nat): (r: seq<nat>)
    ensures p in s ==> |r| == |s| - 1
    ensures forall x :: x in r ==> x in s
    ensures Distinct(s) ==> r == Without(s, p)
  {
    if s == [] then []
    else if s[0] == p then
      assert Distinct(s) ==> s[1..] == Without(s, p) by { if Distinct(s) { TailDistinct(s); } }
      s[1..]
    else
      assert Distinct(s) ==> Distinct(s[1..]) by { if Distinct(s) { TailDistinct(s); } }
      [s[0]] + RemoveFirst(s[1..], p)
  }

  // ---- seats ------------------------------------------------------------------

  /** The first kart, by entity, whose pilot is p. */
  function SeatOf(karts: map<nat, Kart>, p: nat, n: nat): (seat: Option<nat>)
    ensures seat.Some? ==> seat.value < n && seat.value in karts && karts[seat.value].pilot == p
    ensures seat.None? ==> forall k: nat :: k < n && k in karts ==> karts[k].pilot != p
  {
    if n == 0 then None
    else
      var seat := SeatOf(karts, p, n - 1);
      if seat.Some? then seat
      else if n - 1 in karts && karts[n - 1].pilot == p then Some(n - 1)
      else None
  }

  function WithKart(c: Crew, k: nat, kart: Kart): Crew {
    c.(karts := c.karts[k := kart])
  }

  function WithPlayer(c: Crew, p: nat, player: Player): Crew {
    c.(players := c.players[p := player])
  }

  /** Out of the seat, kart hidden, pilot in the air. */
  function Fly(c: Crew, p: nat): Crew {
    var seat := SeatOf(c.karts, p, c.nextKart);
    var d := if seat.None? then c
             else
               var kart := c.karts[seat.value];
               WithKart(c, seat.value, kart.(seats := Without(kart.seats, p), hidden := true));
    if p in c.players then WithPlayer(d, p, d.players[p].(airborne := true)) else d
  }

  /** Inserting a teleport restarts its barrier and takes control of the position. */
  function Teleport(c: Crew, p: nat, transfer: Transfer): Crew {
    if p in c.players then
      WithPlayer(c, p, c.players[p].(transfer := Some(transfer), teleport := Some(0), controlled := true))
    else c
  }

  function SendToLobby(c: Crew, p: nat): Crew {
    Teleport(Fly(c, p), p, ToLobby)
  }

  /** Every ready player is sent back, in query order. */
  function EveryoneToLobby(c: Crew, players: seq<nat>): Crew {
    if players == [] then c
    else
      var before := EveryoneToLobby(c, players[..|players| - 1]);
      var p := players[|players| - 1];
      if p in before.players && before.players[p].ready then SendToLobby(before, p) else before
  }

  function Board(c: Crew, p: nat, k: nat): Crew {
    Teleport(if k in c.karts then WithKart(c, k, c.karts[k].(hidden := false)) else c, p, Boarding)
  }

  function Withdraw(c: Crew, p: nat): Crew {
    var seat := SeatOf(c.karts, p, c.nextKart);
    if seat.None? then c else WithKart(c, seat.value, c.karts[seat.value].(participant := false))
  }

  function TakeSeat(c: Crew, p: nat): Crew
    requires p in c.players
  {
    var seat := SeatOf(c.karts, p, c.nextKart);
    if seat.None? then c
    else
      var kart := c.karts[seat.value];
      var seats := if p in kart.seats then kart.seats else kart.seats + [p];
      WithPlayer(WithKart(c, seat.value, kart.(seats := seats)), p,
                 c.players[p].(controlled := true, airborne := false))
  }

  function Release(c: Crew, p: nat): Crew
    requires p in c.players
  {
    WithPlayer(c, p, c.players[p].(controlled := false))
  }

  /** The observer of a finished teleport. */
  function Arrived(c: Crew, p: nat, outcome: Outcome): Crew
    requires p in c.players
  {
    if c.players[p].transfer.None? then c
    else
      var done := WithPlayer(c, p, c.players[p].(transfer := None));
      match (c.players[p].transfer.value, outcome)
      case (Boarding, Confirmed) => TakeSeat(done, p)
      case (Boarding, TimedOut) => SendToLobby(Withdraw(done, p), p)
      case (Boarding, Cancelled) => Release(Fly(Withdraw(done, p), p), p)
      case (ToLobby, _) => Release(done, p)
  }

  /** The teleport leaves the player, then the observer runs. Whether the barrier
      itself gives control back is overwritten by every branch of the observer. */
  function EndTeleport(c: Crew, p: nat, outcome: Outcome): Crew
    requires p in c.players
  {
    Arrived(WithPlayer(c, p, c.players[p].(teleport := None)), p, outcome)
  }

  /** One tick of the barrier for one player: the teleport ages, and ends when it
      has outlived the timeout or when the client has confirmed. */
  function AdvanceTeleport(c: Crew, p: nat, confirmed: set<nat>): Crew {
    if p !in c.players || c.players[p].teleport.None? then c
    else
      var age := c.players[p].teleport.value + 1;
      if age > TIMEOUT then EndTeleport(c, p, TimedOut)
      else if p in confirmed then EndTeleport(c, p, Confirmed)
      else WithPlayer(c, p, c.players[p].(teleport := Some(age)))
  }

  function Barrier(c: Crew, players: seq<nat>, confirmed: set<nat>): Crew {
    if players == [] then c
    else AdvanceTeleport(Barrier(c, players[..|players| - 1], confirmed), players[|players| - 1], confirmed)
  }

  // ---- the grid -----------------------------------------------------------------

  function JoinGrid(c: Crew, p: nat): Crew {
    if p in c.roster || |c.roster| >= GRID || p !in c.players then c
    else
      WithPlayer(
        WithKart(c.(roster := c.roster + [p], nextKart := c.nextKart + 1),
                 c.nextKart, Kart(p, false, None, 1, 0, true, [])),
        p, c.players[p].(racer := Some(Racer(1, c.nextKart, 0, None))))
  }

  function LeaveGrid(c: Crew, p: nat): Crew {
    if p !in c.roster then c
    else
      var left := c.(roster := RemoveFirst(c.roster, p));
      if p !in c.players || c.players[p].racer.None? then left
      else
        WithPlayer(left.(karts := c.karts - {c.players[p].racer.value.kart}), p, c.players[p].(racer := None))
  }

  function LeaveRace(c: Crew, p: nat): Crew {
    if p !in c.roster then c else SendToLobby(LeaveGrid(c, p), p)
  }

  function Connect(c: Crew): Crew {
    WithPlayer(c.(order := c.order + [c.nextPlayer], nextPlayer := c.nextPlayer + 1),
               c.nextPlayer, Player(false, false, false, None, None, None))
  }

  function BecomeReady(c: Crew, p: nat): Crew {
    if p !in c.players then c
    else JoinGrid(Fly(WithPlayer(c, p, c.players[p].(ready := true)), p), p)
  }

  /** The entity goes with all its components, and is pruned from every seat. */
  function Despawn(c: Crew, p: nat): Crew {
    c.(players := c.players - {p},
       order := Without(c.order, p),
       karts := map k | k in c.karts :: c.karts[k].(seats := Without(c.karts[k].seats, p)))
  }

  /** The quit observer only runs for a player that was ready. */
  function Disconnect(c: Crew, p: nat): Crew {
    if p !in c.players then c
    else Despawn(if c.players[p].ready then LeaveGrid(c, p) else c, p)
  }

  /** The kart a player drives, through its racer component. */
  function KartOf(c: Crew, p: nat): (k: Option<nat>)
    ensures k.Some? ==> k.value in c.karts
  {
    if p in c.players && c.players[p].racer.Some? && c.players[p].racer.value.kart in c.karts
    then Some(c.players[p].racer.value.kart) else None
  }

  /** Every kart of the roster enters the race. */
  function Enlist(c: Crew, players: seq<nat>): Crew {
    if players == [] then c
    else
      var before := Enlist(c, players[..|players| - 1]);
      var k := KartOf(before, players[|players| - 1]);
      if k.None? then before else WithKart(before, k.value, before.karts[k.value].(participant := true))
  }

  /** Every participating pilot of the roster is put on the grid and boards. */
  function BoardAll(c: Crew, players: seq<nat>): Crew {
    if players == [] then c
    else BoardOne(BoardAll(c, players[..|players| - 1]), players[|players| - 1])
  }

  function BoardOne(c: Crew, p: nat): Crew {
    var k := KartOf(c, p);
    if k.None? || !c.karts[k.value].participant then c
    else
      var placed := WithKart(c, k.value, c.karts[k.value].(nextGate := 1, penalty := 0, finished := None));
      var racer := c.players[p].racer.value;
      Board(WithPlayer(placed, p, c.players[p].(racer := Some(racer.(gate := 1, lapStart := 0, bestLap := None)))), p, k.value)
  }
}
