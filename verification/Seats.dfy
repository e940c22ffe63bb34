/** What every step of the crew keeps: one kart per pilot of the grid, and the
    boarding barrier. */
module Seats {
  import opened Options
  import opened Pilots

  // ---- the grid -----------------------------------------------------------------

  ghost predicate TablesOk(c: Crew) {
    && Distinct(c.order) && Distinct(c.roster) && |c.roster| <= GRID
    && (forall p :: p in c.order <==> p in c.players)
    && (forall p :: p in c.players || p in c.roster ==> p < c.nextPlayer)
  }

  /** One kart per pilot, and the pilot of every kart is on the roster. */
  ghost predicate KartsOk(c: Crew) {
    && (forall k :: k in c.karts ==> k < c.nextKart && c.karts[k].pilot in c.roster)
    && (forall k, l :: k in c.karts && l in c.karts && c.karts[k].pilot == c.karts[l].pilot ==> k == l)
  }

  /** A connected player has a racer component exactly while on the roster, and it
      names the player's kart; a transfer lasts as long as its teleport. */
  ghost predicate RacerOk(c: Crew, p: nat)
    requires p in c.players
  {
    var player := c.players[p];
    && (player.racer.Some? <==> p in c.roster)
    && (player.racer.Some? ==> var k := player.racer.value.kart; k in c.karts && c.karts[k].pilot == p)
    && (player.transfer.Some? <==> player.teleport.Some?)
  }

  /** Entities and tables are consistent, whatever clients do. */
  ghost predicate GridOk(c: Crew) {
    TablesOk(c) && KartsOk(c) && forall p :: p in c.players ==> RacerOk(c, p)
  }

  lemma SeatIsUnique(c: Crew, p: nat)
    requires KartsOk(c)
    ensures var seat := SeatOf(c.karts, p, c.nextKart);
            && (forall k :: k in c.karts ==> (c.karts[k].pilot == p <==> seat == Some(k)))
            && (p in c.players && RacerOk(c, p) && c.players[p].racer.Some? ==> seat == Some(c.players[p].racer.value.kart))
  {}

  /** A step that leaves the tables and the pilots alone, and touches one player only. */
  ghost predicate Local(c: Crew, d: Crew, p: nat) {
    && d.order == c.order && d.roster == c.roster && d.nextPlayer == c.nextPlayer && d.nextKart == c.nextKart
    && d.players.Keys == c.players.Keys && d.karts.Keys == c.karts.Keys
    && (forall k :: k in c.karts ==> d.karts[k].pilot == c.karts[k].pilot)
    && (forall k :: k in c.karts && c.karts[k].pilot != p ==> d.karts[k] == c.karts[k])
    && (forall q :: q in c.players && q != p ==> c.players[q] == d.players[q])
    && (p in c.players ==> SameRacer(c.players[p].racer, d.players[p].racer))
  }

  predicate SameRacer(a: Option<Racer>, b: Option<Racer>) {
    (a.None? && b.None?) || (a.Some? && b.Some? && a.value.kart == b.value.kart)
  }

  lemma LocalChain(c: Crew, d: Crew, e: Crew, p: nat)
    requires Local(c, d, p) && Local(d, e, p)
    ensures Local(c, e, p)
  {}

  lemma FlyLocal(c: Crew, p: nat)
    ensures Local(c, Fly(c, p), p)
  {}

  lemma SendToLobbyLocal(c: Crew, p: nat)
    ensures Local(c, SendToLobby(c, p), p)
  {
    FlyLocal(c, p);
  }

  lemma WithPlayerLocal(c: Crew, p: nat, player: Player)
    requires p in c.players && SameRacer(player.racer, c.players[p].racer)
    ensures Local(c, WithPlayer(c, p, player), p)
  {}

  lemma WithdrawLocal(c: Crew, p: nat)
    ensures Local(c, Withdraw(c, p), p)
  {}

  lemma TakeSeatLocal(c: Crew, p: nat)
    requires p in c.players
    ensures Local(c, TakeSeat(c, p), p)
  {}

  lemma TimeoutLocal(c: Crew, p: nat)
    requires p in c.players
    ensures Local(c, SendToLobby(Withdraw(c, p), p), p)
  {
    WithdrawLocal(c, p);
    SendToLobbyLocal(Withdraw(c, p), p);
    LocalChain(c, Withdraw(c, p), SendToLobby(Withdraw(c, p), p), p);
  }

  lemma CancelLocal(c: Crew, p: nat)
    requires p in c.players
    ensures var away := Fly(Withdraw(c, p), p); p in away.players && Local(c, Release(away, p), p)
  {
    WithdrawLocal(c, p);
    FlyLocal(Withdraw(c, p), p);
    var away := Fly(Withdraw(c, p), p);
    LocalChain(c, Withdraw(c, p), away, p);
    WithPlayerLocal(away, p, away.players[p].(controlled := false));
    LocalChain(c, away, Release(away, p), p);
  }

  lemma ArrivedLocal(c: Crew, p: nat, outcome: Outcome)
    requires p in c.players
    ensures Local(c, Arrived(c, p, outcome), p)
  {
    var done := WithPlayer(c, p, c.players[p].(transfer := None));
    assert Local(c, c, p) && Local(c, done, p);
    TakeSeatLocal(done, p);
    TimeoutLocal(done, p);
    CancelLocal(done, p);
    WithPlayerLocal(done, p, done.players[p].(controlled := false));
    hide Local, Fly, Withdraw, TakeSeat, SendToLobby;
    LocalChain(c, done, Arrived(c, p, outcome), p);
  }

  lemma AdvanceTeleportLocal(c: Crew, p: nat, confirmed: set<nat>)
    ensures Local(c, AdvanceTeleport(c, p, confirmed), p)
  {
    if p in c.players && c.players[p].teleport.Some? {
      EndTeleportLocal(c, p, TimedOut);
      EndTeleportLocal(c, p, Confirmed);
      hide EndTeleport;
    }
  }

  /** After a local step it is enough to look at the player it touched. */
  lemma LocalGrid(c: Crew, d: Crew, p: nat)
    requires GridOk(c) && Local(c, d, p)
    requires p in c.players ==> RacerOk(d, p)
    ensures GridOk(d)
  {
    forall q | q in d.players ensures RacerOk(d, q) {
      if q != p { assert RacerOk(c, q); }
    }
  }

  /** What is left of the crew when the markers of a teleport are gone. */
  ghost function Unmarked(c: Crew, p: nat): Crew
    requires p in c.players
  {
    WithPlayer(c, p, c.players[p].(teleport := None, transfer := None))
  }

  lemma EndTeleportIs(c: Crew, p: nat, outcome: Outcome)
    requires p in c.players && c.players[p].transfer.Some?
    ensures var done := Unmarked(c, p);
            EndTeleport(c, p, outcome) ==
              if c.players[p].transfer.value.ToLobby? then Release(done, p)
              else match outcome
                   case Confirmed => TakeSeat(done, p)
                   case TimedOut => SendToLobby(Withdraw(done, p), p)
                   case Cancelled => Release(Fly(Withdraw(done, p), p), p)
  {
    hide SeatOf, Without;
    assert c.players[p := c.players[p].(teleport := None)][p := c.players[p].(teleport := None, transfer := None)]
        == c.players[p := c.players[p].(teleport := None, transfer := None)];
  }

  /** What the parts of the observer do to the markers of p. */
  lemma PartsKeepMarkers(c: Crew, p: nat)
    requires p in c.players
    ensures Withdraw(c, p).players == c.players
    ensures SameMarkers(c, Fly(c, p), p) && SameMarkers(c, TakeSeat(c, p), p) && SameMarkers(c, Release(c, p), p)
    ensures var d := SendToLobby(c, p);
            p in d.players && d.players[p].transfer == Some(ToLobby) && d.players[p].teleport == Some(0)
  {
    hide SeatOf, Without;
  }

  predicate SameMarkers(c: Crew, d: Crew, p: nat)
    requires p in c.players
  {
    p in d.players && d.players[p].transfer == c.players[p].transfer && d.players[p].teleport == c.players[p].teleport
  }

  /** A teleport that ends leaves no transfer behind, except that a pilot who
      failed to board in time is sent to the lobby by a new one. */
  lemma EndTeleportMarkers(c: Crew, p: nat, outcome: Outcome)
    requires p in c.players && (c.players[p].transfer.None? ==> c.players[p].teleport.None?)
    ensures var d := EndTeleport(c, p, outcome);
            && p in d.players
            && (if c.players[p].transfer == Some(Boarding) && outcome == TimedOut
                then d.players[p].transfer == Some(ToLobby) && d.players[p].teleport == Some(0)
                else d.players[p].transfer.None? && d.players[p].teleport.None?)
  {
    if c.players[p].transfer.Some? {
      EndTeleportIs(c, p, outcome);
      var done := Unmarked(c, p);
      PartsKeepMarkers(done, p);
      PartsKeepMarkers(Withdraw(done, p), p);
      hide EndTeleport, Fly, TakeSeat, SendToLobby, Withdraw, Release;
      if outcome == Cancelled { PartsKeepMarkers(Fly(Withdraw(done, p), p), p); }
    }
  }

  lemma EndTeleportLocal(c: Crew, p: nat, outcome: Outcome)
    requires p in c.players
    ensures Local(c, EndTeleport(c, p, outcome), p)
  {
    var ended := c.players[p].(teleport := None);
    WithPlayerLocal(c, p, ended);
    ArrivedLocal(WithPlayer(c, p, ended), p, outcome);
    LocalChain(c, WithPlayer(c, p, ended), EndTeleport(c, p, outcome), p);
  }

  lemma EndTeleportGrid(c: Crew, p: nat, outcome: Outcome)
    requires GridOk(c) && p in c.players && c.players[p].teleport.Some?
    ensures GridOk(EndTeleport(c, p, outcome))
  {
    assert RacerOk(c, p);
    EndTeleportLocal(c, p, outcome);
    EndTeleportMarkers(c, p, outcome);
    hide EndTeleport;
    LocalGrid(c, EndTeleport(c, p, outcome), p);
  }

  lemma AdvanceTeleportGrid(c: Crew, p: nat, confirmed: set<nat>)
    requires GridOk(c)
    ensures GridOk(AdvanceTeleport(c, p, confirmed))
  {
    hide GridOk, EndTeleport, WithPlayer;
    if p in c.players && c.players[p].teleport.Some? {
      var age := c.players[p].teleport.value + 1;
      if age > TIMEOUT {
        EndTeleportGrid(c, p, TimedOut);
      } else if p in confirmed {
        EndTeleportGrid(c, p, Confirmed);
      } else {
        AgeGrid(c, p, age);
      }
    }
  }

  lemma AgeGrid(c: Crew, p: nat, age: nat)
    requires GridOk(c) && p in c.players && c.players[p].teleport.Some?
    ensures GridOk(WithPlayer(c, p, c.players[p].(teleport := Some(age))))
  {
    assert RacerOk(c, p);
    var older := c.players[p].(teleport := Some(age));
    WithPlayerLocal(c, p, older);
    LocalGrid(c, WithPlayer(c, p, older), p);
  }

  lemma {:induction false} BarrierGrid(c: Crew, players: seq<nat>, confirmed: set<nat>)
    requires GridOk(c)
    ensures GridOk(Barrier(c, players, confirmed))
  {
    if players != [] {
      BarrierGrid(c, players[..|players| - 1], confirmed);
      AdvanceTeleportGrid(Barrier(c, players[..|players| - 1], confirmed), players[|players| - 1], confirmed);
    }
  }

  lemma SendToLobbyGrid(c: Crew, p: nat)
    requires GridOk(c)
    ensures GridOk(SendToLobby(c, p))
  {
    if p in c.players { assert RacerOk(c, p); }
    SendToLobbyLocal(c, p);
    LocalGrid(c, SendToLobby(c, p), p);
  }

  lemma {:induction false} EveryoneToLobbyGrid(c: Crew, players: seq<nat>)
    requires GridOk(c)
    ensures GridOk(EveryoneToLobby(c, players)) && EveryoneToLobby(c, players).order == c.order
  {
    if players != [] {
      var before := EveryoneToLobby(c, players[..|players| - 1]);
      EveryoneToLobbyGrid(c, players[..|players| - 1]);
      SendToLobbyGrid(before, players[|players| - 1]);
      SendToLobbyLocal(before, players[|players| - 1]);
    }
  }

  lemma JoinGridGrid(c: Crew, p: nat)
    requires GridOk(c)
    ensures GridOk(JoinGrid(c, p))
  {
    var d := JoinGrid(c, p);
    assert KartsOk(d);
    forall q | q in d.players ensures RacerOk(d, q) { assert RacerOk(c, q); }
  }

  lemma LeaveGridGrid(c: Crew, p: nat)
    requires GridOk(c) && p in c.players
    ensures GridOk(LeaveGrid(c, p)) && p !in LeaveGrid(c, p).roster
  {
    WithoutDistinct(c.roster, p);
    var d := LeaveGrid(c, p);
    assert RacerOk(c, p);
    assert KartsOk(d);
    forall q | q in d.players ensures RacerOk(d, q) { assert RacerOk(c, q); }
  }

  lemma DespawnGrid(c: Crew, p: nat)
    requires GridOk(c)
    ensures GridOk(Despawn(c, p))
  {
    WithoutDistinct(c.order, p);
    var d := Despawn(c, p);
    assert KartsOk(d);
    forall q | q in d.players ensures RacerOk(d, q) { assert RacerOk(c, q); }
  }

  lemma DisconnectGrid(c: Crew, p: nat)
    requires GridOk(c)
    ensures GridOk(Disconnect(c, p))
  {
    if p in c.players {
      LeaveGridGrid(c, p);
      DespawnGrid(LeaveGrid(c, p), p);
      DespawnGrid(c, p);
    }
  }

  lemma ConnectGrid(c: Crew)
    requires GridOk(c)
    ensures GridOk(Connect(c))
  {
    assert c.nextPlayer !in c.order;
    var d := Connect(c);
    forall q | q in d.players ensures RacerOk(d, q) {
      if q != c.nextPlayer { assert RacerOk(c, q); }
    }
  }

  lemma BecomeReadyGrid(c: Crew, p: nat)
    requires GridOk(c)
    ensures GridOk(BecomeReady(c, p))
  {
    if p in c.players {
      assert RacerOk(c, p);
      var marked := WithPlayer(c, p, c.players[p].(ready := true));
      LocalGrid(c, marked, p);
      FlyLocal(marked, p);
      LocalGrid(marked, Fly(marked, p), p);
      JoinGridGrid(Fly(marked, p), p);
    }
  }

  lemma {:induction false} EnlistGrid(c: Crew, players: seq<nat>)
    requires GridOk(c)
    ensures GridOk(Enlist(c, players)) && Enlist(c, players).players == c.players && Enlist(c, players).order == c.order
  {
    if players != [] {
      var before := Enlist(c, players[..|players| - 1]);
      EnlistGrid(c, players[..|players| - 1]);
      var d := Enlist(c, players);
      assert KartsOk(d);
      forall q | q in d.players ensures RacerOk(d, q) { assert RacerOk(before, q); }
    }
  }

  /** The pilot has a kart that takes part in the round. */
  ghost predicate Enlisted(c: Crew, p: nat) {
    KartOf(c, p).Some? && c.karts[KartOf(c, p).value].participant
  }

  lemma BoardOneLocal(c: Crew, p: nat)
    requires GridOk(c)
    ensures Local(c, BoardOne(c, p), p)
  {
    if p in c.players { assert RacerOk(c, p); }
  }

  lemma BoardOneGrid(c: Crew, p: nat)
    requires GridOk(c)
    ensures GridOk(BoardOne(c, p))
    ensures Enlisted(c, p) ==> var player := BoardOne(c, p).players[p]; player.transfer == Some(Boarding) && player.teleport == Some(0)
    ensures !Enlisted(c, p) ==> BoardOne(c, p) == c
    ensures forall q :: q in c.players ==> (Enlisted(c, q) <==> Enlisted(BoardOne(c, p), q))
  {
    BoardOneLocal(c, p);
    if p in c.players { assert RacerOk(c, p); }
    LocalGrid(c, BoardOne(c, p), p);
    forall q | q in c.players ensures Enlisted(c, q) <==> Enlisted(BoardOne(c, p), q) {
      assert RacerOk(c, q);
    }
  }

  // ---- the boarding barrier -------------------------------------------------------

  predicate IsBoarding(player: Player) {
    player.transfer == Some(Boarding)
  }

  /** The pilot p, and nobody else, sits in the kart. */
  predicate Seated(p: nat, player: Player, kart: Kart) {
    !kart.hidden && kart.seats == [p] && player.transfer.None?
  }

  /** Only karts of the round are boarded or sat in, each by its own pilot; boarding is
      possible while `loading`; a kart is visible exactly while it is boarded or sat in; and
      once the round has `started`, every pilot of it boards or sits. */
  predicate PilotFit(p: nat, player: Player, kart: Kart, loading: bool, started: bool) {
    && (kart.seats == [] || (kart.seats == [p] && kart.participant))
    && (IsBoarding(player) ==> loading && kart.participant)
    && (!kart.hidden <==> IsBoarding(player) || kart.seats == [p])
    && (started && kart.participant ==> Seated(p, player, kart) || IsBoarding(player))
  }

  /** A kart whose pilot is gone has no part in anything. */
  predicate Abandoned(kart: Kart) {
    kart.hidden && kart.seats == [] && !kart.participant
  }

  /** The boarding barrier, kart by kart. */
  ghost predicate Manned(c: Crew, loading: bool, started: bool) {
    && (forall p :: p in c.players && IsBoarding(c.players[p]) ==> loading && Enlisted(c, p))
    && (forall k :: k in c.karts ==>
         var p := c.karts[k].pilot;
         if p in c.players then PilotFit(p, c.players[p], c.karts[k], loading, started) else Abandoned(c.karts[k]))
  }

  /** The same, pilot by pilot. */
  ghost predicate Fit(c: Crew, p: nat, loading: bool, started: bool)
    requires p in c.players && RacerOk(c, p)
  {
    var player := c.players[p];
    if player.racer.Some? then PilotFit(p, player, c.karts[player.racer.value.kart], loading, started)
    else !IsBoarding(player)
  }

  ghost predicate NoneLeftBehind(c: Crew) {
    forall k :: k in c.karts && c.karts[k].pilot !in c.players ==> Abandoned(c.karts[k])
  }

  ghost predicate SeatsOk(c: Crew, loading: bool, started: bool) {
    GridOk(c) && NoneLeftBehind(c) && forall p :: p in c.players ==> Fit(c, p, loading, started)
  }

  lemma SeatsAreManned(c: Crew, loading: bool, started: bool)
    requires GridOk(c)
    ensures SeatsOk(c, loading, started) <==> Manned(c, loading, started)
  {
    forall p | p in c.players
      ensures RacerOk(c, p)
      ensures forall k :: k in c.karts && c.karts[k].pilot == p ==> c.players[p].racer.Some? && c.players[p].racer.value.kart == k
    {
      assert RacerOk(c, p);
      SeatIsUnique(c, p);
    }
    hide TablesOk;
  }

  lemma LocalSeats(c: Crew, d: Crew, p: nat, loading: bool, started: bool)
    requires SeatsOk(c, loading, started) && Local(c, d, p) && p in c.players && RacerOk(d, p) && Fit(d, p, loading, started)
    ensures SeatsOk(d, loading, started)
  {
    LocalGrid(c, d, p);
    forall q | q in d.players ensures Fit(d, q, loading, started) {
      if q != p { assert RacerOk(c, q) && Fit(c, q, loading, started); }
    }
  }

  lemma TakeSeatFit(c: Crew, p: nat, started: bool)
    requires KartsOk(c) && p in c.players && RacerOk(c, p) && c.players[p].transfer.None?
    requires var r := c.players[p].racer; r.Some? ==>
      var kart := c.karts[r.value.kart];
      kart.participant && !kart.hidden && (kart.seats == [] || kart.seats == [p])
    ensures RacerOk(TakeSeat(c, p), p) && Fit(TakeSeat(c, p), p, true, started)
  {
    SeatIsUnique(c, p);
    assert c.players[p].racer.None? ==> SeatOf(c.karts, p, c.nextKart).None?;
  }

  /** Flying leaves the kart hidden and empty, as it must be once it has no part in the round. */
  lemma FlyFit(c: Crew, p: nat, loading: bool, started: bool)
    requires KartsOk(c) && p in c.players && RacerOk(c, p)
    requires !IsBoarding(c.players[p])
    requires c.players[p].racer.Some? ==>
      var kart := c.karts[c.players[p].racer.value.kart];
      !(started && kart.participant) && (kart.seats == [] || kart.seats == [p])
    ensures p in Fly(c, p).players && RacerOk(Fly(c, p), p) && Fit(Fly(c, p), p, loading, started)
  {
    SeatIsUnique(c, p);
  }

  lemma SendToLobbyFit(c: Crew, p: nat, loading: bool, started: bool)
    requires KartsOk(c) && p in c.players && RacerOk(c, p)
    requires c.players[p].racer.Some? ==>
      var kart := c.karts[c.players[p].racer.value.kart];
      !(started && kart.participant) && (kart.seats == [] || kart.seats == [p])
    ensures p in SendToLobby(c, p).players && RacerOk(SendToLobby(c, p), p) && Fit(SendToLobby(c, p), p, loading, started)
  {
    SeatIsUnique(c, p);
  }

  lemma WithdrawEffect(c: Crew, p: nat)
    requires KartsOk(c) && p in c.players && RacerOk(c, p)
    ensures var d := Withdraw(c, p);
            && d.players == c.players && KartsOk(d) && RacerOk(d, p)
            && (c.players[p].racer.Some? ==>
                 var k := c.players[p].racer.value.kart; d.karts[k] == c.karts[k].(participant := false))
  {
    SeatIsUnique(c, p);
  }

  lemma UnmarkedFit(c: Crew, p: nat, loading: bool, started: bool)
    requires GridOk(c) && p in c.players && Fit(c, p, loading, started)
    ensures KartsOk(Unmarked(c, p)) && RacerOk(Unmarked(c, p), p) && Unmarked(c, p).karts == c.karts
  {
    assert RacerOk(c, p);
  }

  lemma BoardingEndsFit(c: Crew, p: nat, outcome: Outcome, loading: bool, started: bool)
    requires GridOk(c) && p in c.players && c.players[p].transfer == Some(Boarding) && Fit(c, p, loading, started)
    ensures var d := EndTeleport(c, p, outcome);
            p in d.players && RacerOk(d, p) && Fit(d, p, loading, started)
  {
    var done := Unmarked(c, p);
    UnmarkedFit(c, p, loading, started);
    EndTeleportIs(c, p, outcome);
    hide EndTeleport, TablesOk, Fly, Withdraw, TakeSeat, SendToLobby, SeatOf;
    if outcome == Confirmed {
      TakeSeatFit(done, p, started);
    } else {
      WithdrawEffect(done, p);
      if outcome == TimedOut {
        SendToLobbyFit(Withdraw(done, p), p, loading, started);
      } else {
        FlyReleased(Withdraw(done, p), p, loading, started);
      }
    }
  }

  lemma EndTeleportFit(c: Crew, p: nat, outcome: Outcome, loading: bool, started: bool)
    requires GridOk(c) && p in c.players && c.players[p].teleport.Some? && Fit(c, p, loading, started)
    ensures var d := EndTeleport(c, p, outcome);
            p in d.players && RacerOk(d, p) && Fit(d, p, loading, started)
  {
    assert RacerOk(c, p);
    hide EndTeleport;
    if c.players[p].transfer == Some(Boarding) {
      BoardingEndsFit(c, p, outcome, loading, started);
    } else {
      assert c.players[p].transfer.value == ToLobby;
      LobbyEndsFit(c, p, outcome, loading, started);
    }
  }

  lemma LobbyEndsFit(c: Crew, p: nat, outcome: Outcome, loading: bool, started: bool)
    requires GridOk(c) && p in c.players && c.players[p].transfer == Some(ToLobby) && Fit(c, p, loading, started)
    ensures var d := EndTeleport(c, p, outcome);
            p in d.players && RacerOk(d, p) && Fit(d, p, loading, started)
  {
    EndTeleportIs(c, p, outcome);
    UnmarkedFit(c, p, loading, started);
    hide EndTeleport, Fly, Withdraw, TakeSeat, SendToLobby;
  }

  lemma FlyReleased(c: Crew, p: nat, loading: bool, started: bool)
    requires KartsOk(c) && p in c.players && RacerOk(c, p)
    requires c.players[p].transfer.None?
    requires c.players[p].racer.Some? ==>
      var kart := c.karts[c.players[p].racer.value.kart];
      !(started && kart.participant) && (kart.seats == [] || kart.seats == [p])
    ensures p in Fly(c, p).players
    ensures var d := Release(Fly(c, p), p); RacerOk(d, p) && Fit(d, p, loading, started)
  {
    SeatIsUnique(c, p);
  }

  lemma AdvanceTeleportSeats(c: Crew, p: nat, confirmed: set<nat>, loading: bool, started: bool)
    requires SeatsOk(c, loading, started)
    ensures SeatsOk(AdvanceTeleport(c, p, confirmed), loading, started)
  {
    if p in c.players && c.players[p].teleport.Some? {
      AdvanceTeleportLocal(c, p, confirmed);
      var d := AdvanceTeleport(c, p, confirmed);
      EndTeleportFit(c, p, TimedOut, loading, started);
      EndTeleportFit(c, p, Confirmed, loading, started);
      hide EndTeleport, TablesOk, KartsOk, Local, NoneLeftBehind;
      assert RacerOk(c, p);
      assert RacerOk(d, p) && Fit(d, p, loading, started);
      LocalSeats(c, d, p, loading, started);
    }
  }

  lemma {:induction false} BarrierSeats(c: Crew, players: seq<nat>, confirmed: set<nat>, loading: bool, started: bool)
    requires SeatsOk(c, loading, started)
    ensures SeatsOk(Barrier(c, players, confirmed), loading, started)
  {
    if players != [] {
      BarrierSeats(c, players[..|players| - 1], confirmed, loading, started);
      AdvanceTeleportSeats(Barrier(c, players[..|players| - 1], confirmed), players[|players| - 1], confirmed, loading, started);
    }
  }

  lemma JoinedFit(c: Crew, p: nat, q: nat, loading: bool, started: bool)
    requires GridOk(c) && q in c.players && RacerOk(c, q) && Fit(c, q, loading, started)
    ensures var d := JoinGrid(c, p); q in d.players && RacerOk(d, q) && Fit(d, q, loading, started)
  {
    hide TablesOk;
  }

  /** A join in any phase, ready or not, adds a hidden and empty kart that waits for the
      next round. */
  lemma JoinGridSeats(c: Crew, p: nat, loading: bool, started: bool)
    requires SeatsOk(c, loading, started)
    ensures SeatsOk(JoinGrid(c, p), loading, started)
  {
    JoinGridGrid(c, p);
    var d := JoinGrid(c, p);
    assert NoneLeftBehind(d);
    assert d.players.Keys == c.players.Keys && forall q :: q in c.players ==> RacerOk(c, q);
    hide JoinGrid, Fit, NoneLeftBehind;
    forall q | q in d.players ensures Fit(d, q, loading, started) {
      JoinedFit(c, p, q, loading, started);
    }
  }

  lemma LeaveGridSeats(c: Crew, p: nat, loading: bool, started: bool)
    requires SeatsOk(c, loading, started) && p in c.players
    ensures GridOk(LeaveGrid(c, p)) && p !in LeaveGrid(c, p).roster
    ensures NoneLeftBehind(LeaveGrid(c, p)) && forall k :: k in LeaveGrid(c, p).karts ==> LeaveGrid(c, p).karts[k].pilot != p
    ensures forall q :: q in c.players && q != p ==> q in LeaveGrid(c, p).players && Fit(LeaveGrid(c, p), q, loading, started)
  {
    LeaveGridGrid(c, p);
    var d := LeaveGrid(c, p);
    forall q | q in c.players && q != p ensures q in d.players && Fit(d, q, loading, started) {
      assert RacerOk(c, q) && Fit(c, q, loading, started) && RacerOk(c, p);
    }
  }

  lemma LeaveRaceSeats(c: Crew, p: nat, loading: bool, started: bool)
    requires SeatsOk(c, loading, started) && p in c.players
    ensures SeatsOk(LeaveRace(c, p), loading, started)
  {
    if p in c.roster {
      var left := LeaveGrid(c, p);
      var d := SendToLobby(left, p);
      LeaveGridSeats(c, p, loading, started);
      assert RacerOk(c, p) && Fit(c, p, loading, started) && RacerOk(left, p);
      SendToLobbyLocal(left, p);
      SendToLobbyFit(left, p, loading, started);
      LocalGrid(left, d, p);
      forall q | q in d.players ensures Fit(d, q, loading, started) {
        if q != p { assert Fit(left, q, loading, started); }
      }
    }
  }

  lemma DespawnFit(c: Crew, p: nat, q: nat, loading: bool, started: bool)
    requires GridOk(c) && q in c.players && q != p && RacerOk(c, q) && Fit(c, q, loading, started)
    ensures RacerOk(Despawn(c, p), q) && Fit(Despawn(c, p), q, loading, started)
  {
    var d := Despawn(c, p);
    if c.players[q].racer.Some? {
      var k := c.players[q].racer.value.kart;
      assert d.karts[k] == c.karts[k];
    }
  }

  /** An entity may go when its kart has gone before, or takes no part in the round. */
  lemma DespawnSeats(c: Crew, p: nat, loading: bool, started: bool)
    requires GridOk(c) && NoneLeftBehind(c) && forall k :: k in c.karts && c.karts[k].pilot == p ==> Abandoned(c.karts[k])
    requires forall q :: q in c.players && q != p ==> RacerOk(c, q) && Fit(c, q, loading, started)
    ensures SeatsOk(Despawn(c, p), loading, started)
  {
    DespawnGrid(c, p);
    var d := Despawn(c, p);
    assert NoneLeftBehind(d) by {
      forall k | k in d.karts && d.karts[k].pilot !in d.players ensures Abandoned(d.karts[k]) {
        assert Abandoned(c.karts[k]);
      }
    }
    hide GridOk, Despawn, Fit, NoneLeftBehind;
    forall q | q in d.players ensures q in c.players && q != p && RacerOk(d, q) && Fit(d, q, loading, started) {
      DespawnPlayers(c, p);
      DespawnFit(c, p, q, loading, started);
    }
  }

  lemma DespawnPlayers(c: Crew, p: nat)
    ensures Despawn(c, p).players == c.players - {p}
  {}

  /** A disconnect keeps the barrier unless the player never became ready and has a kart in
      the round: the quit observer runs for ready players only. */
  lemma DisconnectSeats(c: Crew, p: nat, loading: bool, started: bool)
    requires SeatsOk(c, loading, started) && p in c.players
    ensures SeatsOk(Disconnect(c, p), loading, started) <==> c.players[p].ready || !Enlisted(c, p)
  {
    assert RacerOk(c, p) && Fit(c, p, loading, started);
    assert forall q :: q in c.players ==> RacerOk(c, q);
    if c.players[p].ready {
      LeaveGridSeats(c, p, loading, started);
      hide LeaveGrid, Despawn, Fit, PilotFit;
      DespawnSeats(LeaveGrid(c, p), p, loading, started);
    } else {
      SeatIsUnique(c, p);
      hide Despawn, TablesOk;
      if Enlisted(c, p) {
        LeftBehind(c, p);
      } else {
        DespawnSeats(c, p, loading, started);
      }
    }
  }

  lemma LeftBehind(c: Crew, p: nat)
    requires p in c.players && RacerOk(c, p) && Enlisted(c, p)
    ensures !NoneLeftBehind(Despawn(c, p))
  {
    var d := Despawn(c, p);
    var k := KartOf(c, p).value;
    assert k in d.karts && d.karts[k].pilot !in d.players && !Abandoned(d.karts[k]);
  }

  lemma ConnectSeats(c: Crew, loading: bool, started: bool)
    requires SeatsOk(c, loading, started)
    ensures SeatsOk(Connect(c), loading, started)
  {
    ConnectGrid(c);
    var d := Connect(c);
    forall q | q in d.players ensures Fit(d, q, loading, started) {
      if q != c.nextPlayer { assert RacerOk(c, q) && Fit(c, q, loading, started); }
    }
  }

  /** Lifting a pilot out of a round that has started breaks the barrier. */
  lemma FlyBreaks(c: Crew, p: nat, loading: bool, started: bool)
    requires SeatsOk(c, loading, started) && p in c.players && started && Enlisted(c, p)
    ensures var d := BecomeReady(c, p); p in d.players && !(GridOk(d) && Fit(d, p, loading, started))
  {
    assert RacerOk(c, p) && Fit(c, p, loading, started);
    var marked := WithPlayer(c, p, c.players[p].(ready := true));
    assert KartsOk(marked) && RacerOk(marked, p);
    SeatIsUnique(marked, p);
    assert BecomeReady(c, p) == Fly(marked, p);
  }

  lemma ReadyOutside(c: Crew, p: nat, loading: bool, started: bool)
    requires SeatsOk(c, loading, started) && p in c.players && (loading ==> started) && !(started && Enlisted(c, p))
    ensures SeatsOk(BecomeReady(c, p), loading, started)
  {
    assert RacerOk(c, p) && Fit(c, p, loading, started);
    var marked := WithPlayer(c, p, c.players[p].(ready := true));
    assert KartsOk(marked) && RacerOk(marked, p);
    var d := Fly(marked, p);
    FlyLocal(marked, p);
    WithPlayerLocal(c, p, c.players[p].(ready := true));
    LocalChain(c, marked, d, p);
    FlyFit(marked, p, loading, started);
    LocalSeats(c, d, p, loading, started);
    hide SeatsOk, Fly;
    JoinGridSeats(d, p, loading, started);
  }

  /** A ready event keeps the barrier unless the player's kart is in a round that has
      started: the observer lifts the pilot out of the seat and hides the kart
      unconditionally. */
  lemma BecomeReadySeats(c: Crew, p: nat, loading: bool, started: bool)
    requires SeatsOk(c, loading, started) && p in c.players && (loading ==> started)
    ensures SeatsOk(BecomeReady(c, p), loading, started) <==> !(started && Enlisted(c, p))
  {
    hide BecomeReady, Fit, GridOk;
    if started && Enlisted(c, p) {
      FlyBreaks(c, p, loading, started);
    } else {
      ReadyOutside(c, p, loading, started);
    }
  }

  // ---- the folds over the roster ----------------------------------------------------

  /** Nothing about p changes between two crews, kart included. */
  ghost predicate Untouched(c: Crew, d: Crew, p: nat) {
    && p in c.players && p in d.players && d.players[p] == c.players[p]
    && (c.players[p].racer.Some? ==> var k := c.players[p].racer.value.kart; k in c.karts && k in d.karts && d.karts[k] == c.karts[k])
  }

  /** Only markers and the visible state of karts may change. */
  ghost predicate SameShape(c: Crew, d: Crew) {
    && d.order == c.order && d.roster == c.roster && d.nextPlayer == c.nextPlayer && d.nextKart == c.nextKart
    && d.players.Keys == c.players.Keys && d.karts.Keys == c.karts.Keys
    && (forall k :: k in c.karts ==> d.karts[k].pilot == c.karts[k].pilot)
    && (forall k :: k in c.karts && c.karts[k].pilot !in c.players ==> d.karts[k] == c.karts[k])
    && (forall p :: p in c.players ==> d.players[p].ready == c.players[p].ready)
  }

  lemma LocalShape(c: Crew, d: Crew, e: Crew, p: nat)
    requires SameShape(c, d) && Local(d, e, p) && p in c.players && e.players[p].ready == d.players[p].ready
    ensures SameShape(c, e)
  {}

  lemma LocalUntouched(c: Crew, d: Crew, p: nat, q: nat)
    requires GridOk(c) && Local(c, d, p) && q in c.players && q != p
    ensures Untouched(c, d, q)
  {
    assert RacerOk(c, q);
  }

  lemma UntouchedChain(c: Crew, d: Crew, e: Crew, q: nat)
    requires Untouched(c, d, q) && Untouched(d, e, q)
    ensures Untouched(c, e, q)
  {}

  lemma UntouchedFit(c: Crew, d: Crew, q: nat, loading: bool, started: bool)
    requires GridOk(c) && GridOk(d) && q in c.players && Untouched(c, d, q)
    ensures RacerOk(c, q) && RacerOk(d, q) && (Fit(c, q, loading, started) <==> Fit(d, q, loading, started))
  {}

  /** What a fold has done after some players: those that qualify fit, the others are untouched. */
  ghost predicate Done(c: Crew, d: Crew, q: nat, qualifies: bool, loading: bool, started: bool)
    requires GridOk(d)
  {
    if qualifies then q in d.players && Fit(d, q, loading, started) else Untouched(c, d, q)
  }

  lemma DoneStep(c: Crew, d: Crew, e: Crew, p: nat, q: nat, qualifies: bool, loading: bool, started: bool)
    requires GridOk(d) && GridOk(e) && Local(d, e, p) && q != p && q in d.players
    requires Done(c, d, q, qualifies, loading, started)
    ensures Done(c, e, q, qualifies, loading, started)
  {
    LocalUntouched(d, e, p, q);
    UntouchedFit(d, e, q, loading, started);
    if !qualifies { UntouchedChain(c, d, e, q); }
  }

  /** Hidden and empty, its pilot on the way to the lobby. */
  ghost predicate SentToLobby(c: Crew, p: nat)
    requires p in c.players && RacerOk(c, p)
  {
    var player := c.players[p];
    && player.transfer == Some(ToLobby) && player.teleport == Some(0) && player.airborne
    && (player.racer.Some? ==> var kart := c.karts[player.racer.value.kart]; kart.hidden && kart.seats == [])
  }

  ghost predicate Sent(c: Crew, d: Crew, q: nat, ready: bool)
    requires GridOk(d)
  {
    if ready then q in d.players && SentToLobby(d, q) else Untouched(c, d, q)
  }

  lemma SentStep(c: Crew, d: Crew, e: Crew, p: nat, q: nat, ready: bool)
    requires GridOk(d) && GridOk(e) && Local(d, e, p) && q != p && q in d.players && Sent(c, d, q, ready)
    ensures Sent(c, e, q, ready)
  {
    LocalUntouched(d, e, p, q);
    if !ready { UntouchedChain(c, d, e, q); }
  }

  lemma {:induction false} EveryoneToLobbyEffect(c: Crew, players: seq<nat>, loading: bool, started: bool)
    requires SeatsOk(c, loading, started) && Distinct(players) && forall p :: p in players ==> p in c.players
    ensures var d := EveryoneToLobby(c, players);
            && SameShape(c, d) && GridOk(d)
            && (forall q :: q in c.players ==> Sent(c, d, q, q in players && c.players[q].ready))
  {
    if players == [] {
      forall p | p in c.players ensures Untouched(c, c, p) { assert RacerOk(c, p); }
    } else {
      var rest := players[..|players| - 1];
      var p := players[|players| - 1];
      EveryoneToLobbyEffect(c, rest, loading, started);
      var before := EveryoneToLobby(c, rest);
      assert p !in rest && forall q :: q in players <==> q in rest || q == p;
      assert Sent(c, before, p, false);
      if c.players[p].ready {
        EveryoneStep(c, before, rest, p, loading, started);
      }
      hide Sent, SendToLobby, GridOk, SeatsOk;
    }
  }

  lemma EveryoneStep(c: Crew, before: Crew, rest: seq<nat>, p: nat, loading: bool, started: bool)
    requires SeatsOk(c, loading, started) && p in c.players && p !in rest && c.players[p].ready
    requires SameShape(c, before) && GridOk(before)
    requires forall q :: q in c.players ==> Sent(c, before, q, q in rest && c.players[q].ready)
    ensures var d := SendToLobby(before, p);
            && SameShape(c, d) && GridOk(d)
            && (forall q :: q in c.players ==> Sent(c, d, q, (q in rest || q == p) && c.players[q].ready))
  {
    assert Sent(c, before, p, false);
    SendUntouched(c, before, p, loading, started);
    var d := SendToLobby(before, p);
    LocalShape(c, before, d, p);
    assert Sent(c, d, p, true);
    hide SendToLobby, GridOk, SeatsOk, Local, Sent, SentToLobby;
    forall q | q in c.players ensures Sent(c, d, q, (q in rest || q == p) && c.players[q].ready) {
      if q != p { SentStep(c, before, d, p, q, q in rest && c.players[q].ready); }
    }
  }

  lemma SendUntouched(c: Crew, d: Crew, p: nat, loading: bool, started: bool)
    requires SeatsOk(c, loading, started) && p in c.players
    requires GridOk(d) && Untouched(c, d, p)
    ensures var e := SendToLobby(d, p);
            GridOk(e) && Local(d, e, p) && p in e.players && e.players[p].ready == c.players[p].ready && SentToLobby(e, p)
  {
    assert RacerOk(c, p) && Fit(c, p, loading, started) && RacerOk(d, p);
    SendToLobbyLocal(d, p);
    SeatIsUnique(d, p);
    assert RacerOk(SendToLobby(d, p), p);
    LocalGrid(d, SendToLobby(d, p), p);
  }

  /** Sending everyone to the lobby when nobody boards: every ready player's kart is hidden
      and empty, its pilot on the way; players that never became ready, and their seats, are
      left as they are. */
  lemma EveryoneToLobbySeats(c: Crew, started: bool)
    requires SeatsOk(c, false, started)
    ensures var d := EveryoneToLobby(c, c.order);
            && SeatsOk(d, false, false) && d.players.Keys == c.players.Keys
            && forall p :: p in c.players ==> if c.players[p].ready then SentToLobby(d, p) else Untouched(c, d, p)
  {
    EveryoneToLobbyEffect(c, c.order, false, started);
    var d := EveryoneToLobby(c, c.order);
    forall p | p in d.players ensures Fit(d, p, false, false) && if c.players[p].ready then SentToLobby(d, p) else Untouched(c, d, p) {
      assert RacerOk(c, p) && Fit(c, p, false, started) && RacerOk(d, p);
      assert Sent(c, d, p, p in c.order && c.players[p].ready);
      if !c.players[p].ready { UntouchedFit(c, d, p, false, started); }
    }
  }

  lemma TimeoutWithdraws(c: Crew, p: nat)
    requires GridOk(c) && p in c.players && c.players[p].transfer == Some(Boarding)
    ensures !Enlisted(EndTeleport(c, p, TimedOut), p)
  {
    assert RacerOk(c, p);
    SeatIsUnique(c, p);
  }

  lemma {:induction false} EnlistSeats(c: Crew, players: seq<nat>)
    requires SeatsOk(c, false, false)
    ensures SeatsOk(Enlist(c, players), false, false)
  {
    if players != [] {
      EnlistSeats(c, players[..|players| - 1]);
      var before := Enlist(c, players[..|players| - 1]);
      EnlistGrid(c, players);
      var d := Enlist(c, players);
      forall q | q in d.players ensures Fit(d, q, false, false) {
        assert RacerOk(before, q) && Fit(before, q, false, false);
      }
    }
  }

  lemma BoardOneFit(c: Crew, p: nat)
    requires GridOk(c) && p in c.players && Fit(c, p, false, false) && Enlisted(c, p)
    ensures var d := BoardOne(c, p);
            p in d.players && RacerOk(d, p) && Fit(d, p, true, true) && d.players[p].ready == c.players[p].ready
  {
    assert RacerOk(c, p);
  }

  ghost predicate Boarded(c: Crew, d: Crew, players: seq<nat>) {
    && SameShape(c, d) && GridOk(d)
    && (forall q :: q in c.players ==> Done(c, d, q, q in players && Enlisted(c, q), true, true))
  }

  lemma BoardUntouched(c: Crew, before: Crew, p: nat)
    requires SeatsOk(c, false, false) && p in c.players && Enlisted(c, p)
    requires GridOk(before) && SameShape(c, before) && Untouched(c, before, p)
    ensures var d := BoardOne(before, p);
            GridOk(d) && Local(before, d, p) && SameShape(c, d) && p in d.players && Fit(d, p, true, true)
  {
    assert RacerOk(c, p) && RacerOk(before, p);
    assert Enlisted(before, p);
    BoardOneGrid(before, p);
    BoardOneLocal(before, p);
    UntouchedFit(c, before, p, false, false);
    BoardOneFit(before, p);
    hide BoardOne, KartsOk, TablesOk;
    LocalShape(c, before, BoardOne(before, p), p);
  }

  lemma BoardStep(c: Crew, before: Crew, rest: seq<nat>, p: nat)
    requires SeatsOk(c, false, false) && p in c.players && p !in rest && Boarded(c, before, rest) && Enlisted(c, p)
    ensures Boarded(c, BoardOne(before, p), rest + [p])
  {
    hide BoardOne, Enlisted, Local, SameShape, GridOk, SeatsOk, Done;
    var d := BoardOne(before, p);
    BoardKeepsPlayers(c, before, rest);
    assert Untouched(c, before, p) by { BoardedUntouched(c, before, rest, p); }
    BoardUntouched(c, before, p);
    forall q | q in c.players ensures Done(c, d, q, q in rest + [p] && Enlisted(c, q), true, true) {
      assert q in rest + [p] <==> q in rest || q == p;
      if q != p {
        DoneStep(c, before, d, p, q, q in rest && Enlisted(c, q), true, true);
      } else {
        FitIsDone(c, d, p);
      }
    }
  }

  lemma FitIsDone(c: Crew, d: Crew, p: nat)
    requires GridOk(d) && p in d.players && Fit(d, p, true, true)
    ensures Done(c, d, p, true, true, true)
  {}

  lemma BoardKeepsPlayers(c: Crew, d: Crew, players: seq<nat>)
    requires Boarded(c, d, players)
    ensures forall q :: q in c.players <==> q in d.players
  {}

  lemma BoardedUntouched(c: Crew, d: Crew, players: seq<nat>, p: nat)
    requires Boarded(c, d, players) && p in c.players && p !in players
    ensures Untouched(c, d, p)
  {
    assert Done(c, d, p, false, true, true);
  }

  lemma {:induction false} BoardAllEffect(c: Crew, players: seq<nat>)
    requires SeatsOk(c, false, false) && Distinct(players)
    ensures Boarded(c, BoardAll(c, players), players)
  {
    if players == [] {
      forall p | p in c.players ensures Untouched(c, c, p) { assert RacerOk(c, p); }
    } else {
      var rest := players[..|players| - 1];
      var p := players[|players| - 1];
      assert players == rest + [p];
      BoardAllEffect(c, rest);
      var before := BoardAll(c, rest);
      if p in c.players { assert RacerOk(c, p) && RacerOk(before, p) && Done(c, before, p, false, true, true); }
      if Enlisted(c, p) {
        BoardStep(c, before, rest, p);
      } else {
        BoardOneGrid(before, p);
        assert forall q :: q in players && Enlisted(c, q) <==> q in rest && Enlisted(c, q);
      }
    }
  }

  /** When construction ends, the pilot of every participating kart boards it. */
  lemma BoardAllSeats(c: Crew)
    requires SeatsOk(c, false, false)
    ensures SeatsOk(BoardAll(c, c.roster), true, true)
  {
    BoardAllEffect(c, c.roster);
    var d := BoardAll(c, c.roster);
    forall p | p in d.players ensures Fit(d, p, true, true) {
      assert RacerOk(c, p) && Fit(c, p, false, false) && Done(c, d, p, p in c.roster && Enlisted(c, p), true, true);
    }
  }
}
