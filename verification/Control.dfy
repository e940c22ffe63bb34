/** Who flies, who sits, and whose position the server controls, over every run of the
    round machine. */
module Control {
  import opened Options
  import opened TrackIndex
  import opened Arena
  import opened Pilots
  import opened Seats
  import opened Race
  import opened RaceSeats

  /** The player sits in its own kart. */
  predicate Sits(c: Crew, p: nat) {
    var k := KartOf(c, p);
    k.Some? && p in c.karts[k.value].seats
  }

  /** Nobody sits anywhere but in the kart of its own. */
  predicate OwnSeat(c: Crew, p: nat) {
    var k := KartOf(c, p);
    k.Some? ==> c.karts[k.value].seats == [] || c.karts[k.value].seats == [p]
  }

  ghost predicate OwnSeats(c: Crew) {
    forall k :: k in c.karts ==>
      c.karts[k].seats == [] || (c.karts[k].seats == [c.karts[k].pilot] && c.karts[k].pilot in c.players)
  }

  /** Whoever sits is controlled by the server, not airborne, and on no way to the lobby;
      so is controlled whoever is being teleported; and a ready player flies or sits. */
  ghost predicate Held(c: Crew, p: nat)
    requires p in c.players
  {
    var player := c.players[p];
    && (Sits(c, p) ==> player.controlled && !player.airborne && player.transfer != Some(ToLobby))
    && (player.teleport.Some? ==> player.controlled)
    && (player.ready ==> player.airborne || Sits(c, p))
    && (IsBoarding(player) ==> player.racer.Some?)
  }

  /** Nobody is controlled but those that sit or are being teleported. */
  ghost predicate FreeAt(c: Crew, p: nat)
    requires p in c.players
  {
    c.players[p].controlled ==> Sits(c, p) || c.players[p].teleport.Some?
  }

  ghost predicate Free(c: Crew) {
    forall p :: p in c.players ==> FreeAt(c, p)
  }

  ghost predicate Steered(c: Crew) {
    GridOk(c) && OwnSeats(c) && forall p :: p in c.players ==> Held(c, p)
  }

  // ---- one player ---------------------------------------------------------------------

  /** After a step that touches one player it is enough to look at that one. */
  lemma LocalSteered(c: Crew, d: Crew, p: nat)
    requires Steered(c) && Local(c, d, p) && p in c.players && RacerOk(d, p) && Held(d, p) && OwnSeat(d, p)
    ensures Steered(d) && (Free(c) && FreeAt(d, p) ==> Free(d))
    ensures Free(d) ==> FreeAt(d, p)
  {
    LocalGrid(c, d, p);
    assert RacerOk(c, p);
    SeatIsUnique(d, p);
    forall q | q in d.players ensures Held(d, q) && (FreeAt(c, q) && FreeAt(d, p) ==> FreeAt(d, q)) {
      if q != p { OthersStay(c, d, p, q); }
    }
    forall k | k in d.karts
      ensures d.karts[k].seats == [] || (d.karts[k].seats == [d.karts[k].pilot] && d.karts[k].pilot in d.players) {
      if d.karts[k].pilot == p { assert KartOf(d, p) == Some(k); }
    }
  }

  lemma OthersStay(c: Crew, d: Crew, p: nat, q: nat)
    requires GridOk(c) && Local(c, d, p) && q != p && q in c.players
    ensures d.players[q] == c.players[q] && (Sits(d, q) <==> Sits(c, q))
  {
    assert RacerOk(c, q);
  }

  lemma FlyEffect(c: Crew, p: nat)
    requires KartsOk(c) && p in c.players && RacerOk(c, p) && OwnSeat(c, p)
    ensures var d := Fly(c, p);
            && p in d.players && d.players[p] == c.players[p].(airborne := true)
            && KartsOk(d) && RacerOk(d, p) && OwnSeat(d, p) && !Sits(d, p)
  {
    SeatIsUnique(c, p);
  }

  lemma SendEffect(c: Crew, p: nat)
    requires KartsOk(c) && p in c.players && RacerOk(c, p) && OwnSeat(c, p)
    ensures var d := SendToLobby(c, p);
            && p in d.players && RacerOk(d, p) && OwnSeat(d, p) && !Sits(d, p)
            && d.players[p] == c.players[p].(airborne := true, transfer := Some(ToLobby), teleport := Some(0), controlled := true)
  {
    FlyEffect(c, p);
    hide Fly;
  }

  lemma WithdrawSeat(c: Crew, p: nat)
    requires KartsOk(c) && p in c.players && RacerOk(c, p) && OwnSeat(c, p)
    ensures var d := Withdraw(c, p); d.players == c.players && KartsOk(d) && RacerOk(d, p) && OwnSeat(d, p)
  {
    SeatIsUnique(c, p);
  }

  lemma TakeSeatEffect(c: Crew, p: nat)
    requires KartsOk(c) && p in c.players && RacerOk(c, p) && OwnSeat(c, p) && c.players[p].racer.Some?
    ensures var d := TakeSeat(c, p);
            && p in d.players && RacerOk(d, p) && OwnSeat(d, p) && Sits(d, p)
            && d.players[p] == c.players[p].(controlled := true, airborne := false)
  {
    SeatIsUnique(c, p);
  }

  ghost predicate Left(c: Crew, p: nat)
  {
    p in c.players && RacerOk(c, p) && OwnSeat(c, p) && Held(c, p) && FreeAt(c, p)
  }

  /** However a teleport ends, the player it leaves is held as it should be, and free unless
      it sits or a new teleport has begun; a transfer to the lobby frees it in any case. */
  lemma EndTeleportHeld(c: Crew, p: nat, outcome: Outcome)
    requires GridOk(c) && p in c.players && c.players[p].teleport.Some? && OwnSeat(c, p) && Held(c, p)
    ensures Left(EndTeleport(c, p, outcome), p)
    ensures c.players[p].transfer == Some(ToLobby) ==> !EndTeleport(c, p, outcome).players[p].controlled
    ensures IsBoarding(c.players[p]) && outcome == Confirmed ==>
      var d := EndTeleport(c, p, outcome); Sits(d, p) && d.players[p].controlled && !d.players[p].airborne
  {
    assert RacerOk(c, p);
    hide EndTeleport, GridOk, OwnSeat, Held, Left, Sits;
    if IsBoarding(c.players[p]) {
      BoardingHeld(c, p, outcome);
    } else {
      assert c.players[p].transfer.value.ToLobby?;
      LobbyHeld(c, p, outcome);
    }
  }

  lemma UnmarkedSeat(c: Crew, p: nat)
    requires GridOk(c) && p in c.players && OwnSeat(c, p)
    ensures var done := Unmarked(c, p);
            && KartsOk(done) && p in done.players && RacerOk(done, p) && OwnSeat(done, p) && (Sits(done, p) <==> Sits(c, p))
            && done.players[p] == c.players[p].(teleport := None, transfer := None)
  {
    assert RacerOk(c, p);
  }

  lemma BoardingHeld(c: Crew, p: nat, outcome: Outcome)
    requires GridOk(c) && p in c.players && c.players[p].transfer == Some(Boarding) && OwnSeat(c, p) && Held(c, p)
    ensures var d := EndTeleport(c, p, outcome);
            Left(d, p) && (outcome == Confirmed ==> Sits(d, p) && d.players[p].controlled && !d.players[p].airborne)
  {
    EndTeleportIs(c, p, outcome);
    UnmarkedSeat(c, p);
    hide EndTeleport, Fly, Withdraw, TakeSeat, SendToLobby, GridOk, KartsOk, OwnSeat, Unmarked;
    var done := Unmarked(c, p);
    if outcome == Confirmed {
      TakeSeatEffect(done, p);
    } else {
      WithdrawSeat(done, p);
      SendEffect(Withdraw(done, p), p);
      FlyEffect(Withdraw(done, p), p);
      ReleaseEffect(Fly(Withdraw(done, p), p), p);
      hide Release, Sits;
    }
  }

  lemma ReleaseEffect(c: Crew, p: nat)
    requires p in c.players && RacerOk(c, p) && OwnSeat(c, p)
    ensures var d := Release(c, p);
            && p in d.players && d.players[p] == c.players[p].(controlled := false)
            && RacerOk(d, p) && OwnSeat(d, p) && (Sits(d, p) <==> Sits(c, p))
  {}

  lemma LobbyHeld(c: Crew, p: nat, outcome: Outcome)
    requires GridOk(c) && p in c.players && c.players[p].transfer == Some(ToLobby) && OwnSeat(c, p) && Held(c, p)
    ensures var d := EndTeleport(c, p, outcome); Left(d, p) && !d.players[p].controlled
  {
    EndTeleportIs(c, p, outcome);
    UnmarkedSeat(c, p);
    ReleaseEffect(Unmarked(c, p), p);
    hide EndTeleport, Fly, Withdraw, TakeSeat, SendToLobby, GridOk, KartsOk, OwnSeat, Unmarked, Release, Sits;
  }

  lemma EndTeleportSteered(c: Crew, p: nat, outcome: Outcome)
    requires Steered(c) && p in c.players && c.players[p].teleport.Some?
    ensures Steered(EndTeleport(c, p, outcome)) && (Free(c) ==> Free(EndTeleport(c, p, outcome)))
  {
    SeatOfOwn(c, p);
    EndTeleportLocal(c, p, outcome);
    EndTeleportHeld(c, p, outcome);
    hide EndTeleport, Local, GridOk, OwnSeats, Sits, OwnSeat;
    LocalSteered(c, EndTeleport(c, p, outcome), p);
  }

  lemma SeatOfOwn(c: Crew, p: nat)
    requires Steered(c) && p in c.players
    ensures RacerOk(c, p) && OwnSeat(c, p) && Held(c, p) && KartsOk(c)
  {
    assert RacerOk(c, p);
  }

  lemma AdvanceSteered(c: Crew, p: nat, confirmed: set<nat>)
    requires Steered(c)
    ensures Steered(AdvanceTeleport(c, p, confirmed)) && (Free(c) ==> Free(AdvanceTeleport(c, p, confirmed)))
  {
    hide EndTeleport, Steered, Free, WithPlayer;
    if p in c.players && c.players[p].teleport.Some? {
      EndTeleportSteered(c, p, TimedOut);
      EndTeleportSteered(c, p, Confirmed);
      OlderSteered(c, p, c.players[p].teleport.value + 1);
    }
  }

  lemma OlderSteered(c: Crew, p: nat, age: nat)
    requires Steered(c) && p in c.players && c.players[p].teleport.Some?
    ensures var d := WithPlayer(c, p, c.players[p].(teleport := Some(age))); Steered(d) && (Free(c) ==> Free(d))
  {
    SeatOfOwn(c, p);
    var d := WithPlayer(c, p, c.players[p].(teleport := Some(age)));
    WithPlayerLocal(c, p, d.players[p]);
    assert KartOf(d, p) == KartOf(c, p);
    LocalSteered(c, d, p);
  }

  lemma {:induction false} BarrierSteered(c: Crew, players: seq<nat>, confirmed: set<nat>)
    requires Steered(c)
    ensures Steered(Barrier(c, players, confirmed)) && (Free(c) ==> Free(Barrier(c, players, confirmed)))
  {
    hide Steered, Free, AdvanceTeleport;
    if players != [] {
      BarrierSteered(c, players[..|players| - 1], confirmed);
      AdvanceSteered(Barrier(c, players[..|players| - 1], confirmed), players[|players| - 1], confirmed);
    }
  }

  lemma SendSteered(c: Crew, p: nat)
    requires Steered(c) && p in c.players
    ensures Steered(SendToLobby(c, p)) && (Free(c) ==> Free(SendToLobby(c, p)))
  {
    SeatOfOwn(c, p);
    SendToLobbyLocal(c, p);
    SendEffect(c, p);
    hide SendToLobby, Local, GridOk, OwnSeats, Sits, OwnSeat;
    LocalSteered(c, SendToLobby(c, p), p);
  }

  lemma {:induction false} EveryoneSteered(c: Crew, players: seq<nat>)
    requires Steered(c)
    ensures Steered(EveryoneToLobby(c, players)) && (Free(c) ==> Free(EveryoneToLobby(c, players)))
  {
    hide Steered, Free, SendToLobby;
    if players != [] {
      var before := EveryoneToLobby(c, players[..|players| - 1]);
      EveryoneSteered(c, players[..|players| - 1]);
      if players[|players| - 1] in before.players { SendSteered(before, players[|players| - 1]); }
    }
  }

  lemma BoardOneSteered(c: Crew, p: nat)
    requires Steered(c)
    ensures Steered(BoardOne(c, p)) && (Free(c) ==> Free(BoardOne(c, p)))
  {
    if KartOf(c, p).Some? && c.karts[KartOf(c, p).value].participant {
      SeatOfOwn(c, p);
      BoardOneLocal(c, p);
      BoardEffect(c, p);
      hide BoardOne, Local, GridOk, OwnSeats, Sits, OwnSeat;
      LocalSteered(c, BoardOne(c, p), p);
    }
  }

  lemma BoardEffect(c: Crew, p: nat)
    requires KartsOk(c) && p in c.players && RacerOk(c, p) && OwnSeat(c, p) && Held(c, p) && Enlisted(c, p)
    ensures var d := BoardOne(c, p); p in d.players && RacerOk(d, p) && OwnSeat(d, p) && Held(d, p) && FreeAt(d, p)
  {}

  lemma {:induction false} BoardAllSteered(c: Crew, players: seq<nat>)
    requires Steered(c)
    ensures Steered(BoardAll(c, players)) && (Free(c) ==> Free(BoardAll(c, players)))
  {
    hide Steered, Free, BoardOne;
    if players != [] {
      BoardAllSteered(c, players[..|players| - 1]);
      BoardOneSteered(BoardAll(c, players[..|players| - 1]), players[|players| - 1]);
    }
  }

  // ---- the grid -------------------------------------------------------------------------

  lemma JoinSteered(c: Crew, p: nat)
    requires Steered(c)
    ensures Steered(JoinGrid(c, p)) && (Free(c) <==> Free(JoinGrid(c, p)))
  {
    JoinGridGrid(c, p);
    var d := JoinGrid(c, p);
    hide SeatOf;
    assert OwnSeats(d);
    forall q | q in d.players ensures Held(d, q) && (FreeAt(c, q) <==> FreeAt(d, q)) {
      JoinedHeld(c, p, q);
    }
    assert d.players.Keys == c.players.Keys;
  }

  lemma JoinedHeld(c: Crew, p: nat, q: nat)
    requires Steered(c) && q in JoinGrid(c, p).players
    ensures q in c.players && Held(JoinGrid(c, p), q) && (FreeAt(c, q) <==> FreeAt(JoinGrid(c, p), q))
  {
    assert RacerOk(c, q) && Held(c, q);
    hide TablesOk;
  }

  /** Everything but the kart of p, which goes. */
  lemma LeftHeld(c: Crew, p: nat, q: nat)
    requires Steered(c) && p in c.players && q in c.players && q != p
    ensures var d := LeaveGrid(c, p); q in d.players && d.players[q] == c.players[q] && (Sits(d, q) <==> Sits(c, q))
  {
    assert RacerOk(c, q) && RacerOk(c, p);
    hide TablesOk, RemoveFirst;
  }

  lemma LeaveOwnSeats(c: Crew, p: nat)
    requires Steered(c) && p in c.players
    ensures var d := LeaveGrid(c, p); GridOk(d) && OwnSeats(d) && d.players.Keys == c.players.Keys
    ensures var d := LeaveGrid(c, p); RacerOk(d, p) && d.players[p].racer.None? && KartsOk(d)
    ensures var d := LeaveGrid(c, p); d.players[p] == c.players[p].(racer := None)
  {
    assert RacerOk(c, p);
    LeaveGridGrid(c, p);
    hide RemoveFirst;
  }

  lemma LeaveSteered(c: Crew, p: nat)
    requires Steered(c) && p in c.players
    ensures Steered(LeaveRace(c, p)) && (Free(c) ==> Free(LeaveRace(c, p)))
  {
    if p in c.roster {
      var left := LeaveGrid(c, p);
      var d := SendToLobby(left, p);
      LeaveOwnSeats(c, p);
      SendEffect(left, p);
      SendToLobbyLocal(left, p);
      SendToLobbyGrid(left, p);
      FootSeats(left, d, p);
      assert Held(d, p) && FreeAt(d, p);
      forall q | q in d.players ensures Held(d, q) && (FreeAt(c, q) || q == p ==> FreeAt(d, q)) {
        if q != p {
          LeftHeld(c, p, q);
          OthersStay(left, d, p, q);
          assert Held(c, q);
        }
      }
      hide LeaveGrid, SendToLobby, Local, GridOk, OwnSeats, Sits;
      assert d.players.Keys == c.players.Keys by { LocalKeys(left, d, p); }
    }
  }

  lemma LocalKeys(c: Crew, d: Crew, p: nat)
    requires Local(c, d, p)
    ensures d.players.Keys == c.players.Keys
  {}

  lemma FootSeats(c: Crew, d: Crew, p: nat)
    requires GridOk(c) && OwnSeats(c) && Local(c, d, p) && p in c.players && c.players[p].racer.None?
    ensures OwnSeats(d)
  {
    assert RacerOk(c, p);
    hide TablesOk;
  }

  lemma DespawnSteered(c: Crew, p: nat)
    requires GridOk(c) && OwnSeats(c) && p in c.players && forall q :: q in c.players && q != p ==> Held(c, q)
    ensures Steered(Despawn(c, p)) && ((forall q :: q in c.players && q != p ==> FreeAt(c, q)) ==> Free(Despawn(c, p)))
  {
    DespawnGrid(c, p);
    var d := Despawn(c, p);
    assert OwnSeats(d) by { DespawnSeatsOwn(c, p); }
    forall q | q in d.players ensures q in c.players && q != p && Held(d, q) && (FreeAt(c, q) ==> FreeAt(d, q)) {
      DespawnedHeld(c, p, q);
    }
  }

  lemma DespawnSeatsOwn(c: Crew, p: nat)
    requires OwnSeats(c)
    ensures OwnSeats(Despawn(c, p))
  {
    var d := Despawn(c, p);
    forall k | k in d.karts
      ensures d.karts[k].seats == [] || (d.karts[k].seats == [d.karts[k].pilot] && d.karts[k].pilot in d.players) {
      var q := c.karts[k].pilot;
      assert [q][1..] == [] && Without([], p) == [];
      assert Without([q], p) == if q == p then [] else [q];
    }
  }

  lemma DespawnedHeld(c: Crew, p: nat, q: nat)
    requires GridOk(c) && q in Despawn(c, p).players
    ensures q in c.players && q != p
    ensures var d := Despawn(c, p); d.players[q] == c.players[q] && (Sits(d, q) <==> Sits(c, q))
  {
    assert RacerOk(c, q);
    hide TablesOk;
  }

  lemma DisconnectSteered(c: Crew, p: nat)
    requires Steered(c) && p in c.players
    ensures Steered(Pilots.Disconnect(c, p)) && (Free(c) ==> Free(Pilots.Disconnect(c, p)))
  {
    LeaveOwnSeats(c, p);
    forall q | q in c.players && q != p
      ensures q in LeaveGrid(c, p).players && Held(LeaveGrid(c, p), q) && (FreeAt(c, q) ==> FreeAt(LeaveGrid(c, p), q)) {
      LeftHeld(c, p, q);
      assert Held(c, q);
    }
    hide LeaveGrid, Despawn, Held, FreeAt, OwnSeats, GridOk;
    if c.players[p].ready {
      DespawnSteered(LeaveGrid(c, p), p);
    } else {
      DespawnSteered(c, p);
    }
  }

  lemma ConnectSteered(c: Crew)
    requires Steered(c)
    ensures Steered(Pilots.Connect(c)) && (Free(c) ==> Free(Pilots.Connect(c)))
  {
    ConnectGrid(c);
    var d := Pilots.Connect(c);
    forall q | q in d.players ensures Held(d, q) && (q in c.players ==> (FreeAt(c, q) ==> FreeAt(d, q))) {
      if q in c.players { assert Held(c, q) && KartOf(d, q) == KartOf(c, q); }
    }
  }

  /** Lifted out of its seat by a ready event: controlled, with nobody to end it. */
  predicate Unseats(c: Crew, e: Event) {
    e.Ready? && Sits(c, e.p) && e.p in c.players && c.players[e.p].teleport.None?
  }

  lemma ReadyEffect(c: Crew, p: nat)
    requires Steered(c) && p in c.players
    ensures var d := Fly(WithPlayer(c, p, c.players[p].(ready := true)), p);
      && Steered(d) && (Free(c) ==> (Free(d) <==> !Unseats(c, Ready(p))))
  {
    SeatOfOwn(c, p);
    var marked := WithPlayer(c, p, c.players[p].(ready := true));
    var d := Fly(marked, p);
    assert KartOf(marked, p) == KartOf(c, p);
    FlyEffect(marked, p);
    WithPlayerLocal(c, p, marked.players[p]);
    FlyLocal(marked, p);
    LocalChain(c, marked, d, p);
    assert Held(d, p);
    hide Fly, Local, GridOk, OwnSeats, OwnSeat;
    LocalSteered(c, d, p);
  }

  lemma ReadySteered(c: Crew, p: nat)
    requires Steered(c) && p in c.players
    ensures Steered(BecomeReady(c, p)) && (Free(c) ==> (Free(BecomeReady(c, p)) <==> !Unseats(c, Ready(p))))
  {
    ReadyEffect(c, p);
    hide Fly, JoinGrid, Steered, Free, Sits;
    JoinSteered(Fly(WithPlayer(c, p, c.players[p].(ready := true)), p), p);
  }

  lemma ScoredSteered(c: Crew, d: Crew)
    requires Steered(c) && Scored(c, d)
    ensures Steered(d) && (Free(c) <==> Free(d))
  {
    ScoredGrid(c, d);
    forall q | q in d.players ensures Held(d, q) && (FreeAt(c, q) <==> FreeAt(d, q)) {
      assert RacerOk(c, q) && Held(c, q);
    }
    hide GridOk;
  }

  lemma MarkedSteered(c: Crew, k: nat)
    requires Steered(c) && k in c.karts
    requires GridOk(WithKart(c, k, c.karts[k].(participant := true)))
    ensures var d := WithKart(c, k, c.karts[k].(participant := true)); Steered(d) && (Free(c) <==> Free(d))
  {
    var d := WithKart(c, k, c.karts[k].(participant := true));
    assert d.players == c.players && d.karts.Keys == c.karts.Keys;
    assert forall n :: n in c.karts ==> d.karts[n].seats == c.karts[n].seats && d.karts[n].pilot == c.karts[n].pilot;
    forall q | q in d.players ensures (Sits(c, q) <==> Sits(d, q)) && Held(d, q) { assert Held(c, q); }
    hide GridOk;
  }

  lemma {:induction false} EnlistSteered(c: Crew, players: seq<nat>)
    requires Steered(c)
    ensures Steered(Enlist(c, players)) && (Free(c) <==> Free(Enlist(c, players)))
  {
    hide Free, GridOk;
    if players != [] {
      var (front, p) := (players[..|players| - 1], players[|players| - 1]);
      EnlistSteered(c, front);
      var before := Enlist(c, front);
      EnlistGrid(c, players);
      hide Steered;
      if KartOf(before, p).Some? { MarkedSteered(before, KartOf(before, p).value); }
    }
  }

  // ---- the round ------------------------------------------------------------------------

  lemma JudgeSteered(s: State)
    requires Valid(s.world.track) && Steered(s.crew)
    ensures Steered(Judge(s).crew) && (Free(s.crew) ==> Free(Judge(s).crew))
  {
    hide Steered, Free, Valid, TallyKarts, EveryoneToLobby, Scored, ChunkList;
    var t := TallyKarts(s.race, s.crew, s.crew.nextKart);
    TallyScored(s.race, s.crew, s.crew.nextKart);
    ScoredSteered(s.crew, t.crew);
    EveryoneSteered(t.crew, t.crew.order);
  }

  lemma ConstructSteered(terrain: Terrain, s: State)
    requires Valid(s.world.track) && Steered(s.crew)
    ensures Steered(Construct(terrain, s).crew) && (Free(s.crew) ==> Free(Construct(terrain, s).crew))
  {
    hide Steered, Free, Valid, BoardAll, Apply;
    BoardAllSteered(s.crew, s.crew.roster);
  }

  lemma TickSteered(terrain: Terrain, s: State, confirmed: set<nat>, crossing: set<nat>)
    requires Valid(s.world.track) && Steered(s.crew)
    ensures var t := TickRound(terrain, s, confirmed, crossing); Steered(t.crew) && (Free(s.crew) ==> Free(t.crew))
  {
    hide Steered, Free, Valid, Construct, Barrier, Drive, Judge, Scored;
    var ticked := State(s.race.(tick := s.race.tick + 1), Barrier(s.crew, s.crew.order, confirmed), s.world);
    BarrierSteered(s.crew, s.crew.order, confirmed);
    ConstructSteered(terrain, ticked);
    ConstructTrack(terrain, ticked);
    var built := Load(Construct(terrain, ticked));
    var race := CountDown(built.race);
    var driven := State(race, Drive(race, built.crew, crossing), built.world);
    DriveScored(race, built.crew, crossing);
    ScoredSteered(built.crew, driven.crew);
    JudgeSteered(driven);
  }

  lemma LaunchSteered(terrain: Terrain, s: State, p: nat, laps: nat, track: Track)
    requires Valid(s.world.track) && Valid(track) && Steered(s.crew)
    ensures var t := LaunchRound(terrain, s, p, laps, track); Steered(t.crew) && (Free(s.crew) ==> Free(t.crew))
  {
    hide Steered, Free, Valid, Enlist, EveryoneToLobby, Apply, ChunkList;
    EnlistSteered(s.crew, s.crew.roster);
    EveryoneSteered(Enlist(s.crew, s.crew.roster), s.crew.order);
  }

  lemma CancelSteered(c: Crew, p: nat)
    requires Steered(c)
    ensures Steered(CancelTeleport(c, p)) && (Free(c) ==> Free(CancelTeleport(c, p)))
  {
    hide Steered, Free, EndTeleport;
    if p in c.players && c.players[p].teleport.Some? { EndTeleportSteered(c, p, Cancelled); }
  }

  /** Any one event keeps who is held; and nobody is left under control by it if and only
      if it is not a ready event of a player that sits. */
  lemma StepSteered(terrain: Terrain, s: State, e: Event)
    requires Valid(s.world.track) && ValidEvent(s.crew, e) && Steered(s.crew)
    ensures var t := Step(terrain, s, e); Steered(t.crew) && (Free(s.crew) ==> (Free(t.crew) <==> !Unseats(s.crew, e)))
  {
    hide Steered, Free, Valid, TickRound, LaunchRound, Apply, BecomeReady, JoinGrid, LeaveRace, CancelTeleport, RescueKart, Scored,
         Pilots.Connect, Pilots.Disconnect, Sits;
    match e
    case Connect => ConnectSteered(s.crew);
    case Ready(p) => ReadySteered(s.crew, p);
    case Disconnect(p) => DisconnectSteered(s.crew, p);
    case Join(p) => JoinSteered(s.crew, p);
    case Leave(p) => LeaveSteered(s.crew, p);
    case Rescue(p) =>
      RescueScored(s.race, s.crew, p);
      ScoredSteered(s.crew, RescueKart(s.race, s.crew, p));
    case Cancel(p) => CancelSteered(s.crew, p);
    case Launch(p, laps, track) => LaunchSteered(terrain, s, p, laps, track);
    case Stream(pos) =>
    case Tick(confirmed, crossing) => TickSteered(terrain, s, confirmed, crossing);
  }

  ghost predicate FreeUpTo(run: seq<State>, k: nat)
    requires k < |run|
  {
    forall j :: 0 <= j <= k ==> Free(run[j].crew)
  }

  ghost predicate NobodyUnseated(run: seq<State>, events: seq<Event>, k: nat)
    requires |run| == |events| + 1 && k < |run|
  {
    forall j :: 0 <= j < k ==> !Unseats(run[j].crew, events[j])
  }

  lemma InitialSteered(s: State)
    requires Initial(s)
    ensures Steered(s.crew) && Free(s.crew)
  {}

  /** Over every run players are held as they should be; and no player has been left under
      control so far if and only if no ready event so far was of a player that sat. */
  lemma {:induction false} SteeredAlways(terrain: Terrain, run: seq<State>, events: seq<Event>, k: nat)
    requires Run(terrain, run, events) && k < |run|
    ensures Steered(run[k].crew)
    ensures FreeUpTo(run, k) <==> NobodyUnseated(run, events, k)
  {
    hide Steered, Free, Step, Valid, Unseats;
    if k == 0 {
      InitialSteered(run[0]);
    } else {
      SteeredAlways(terrain, run, events, k - 1);
      assert StepTo(terrain, run[k - 1], events[k - 1], run[k]);
      StepSteered(terrain, run[k - 1], events[k - 1]);
      assert FreeUpTo(run, k) <==> FreeUpTo(run, k - 1) && Free(run[k].crew);
      assert NobodyUnseated(run, events, k) <==> NobodyUnseated(run, events, k - 1) && !Unseats(run[k - 1].crew, events[k - 1]);
    }
  }

  /** Over every run: a player that sits is under control and does not fly, a ready player
      that does not sit flies, and whoever is being teleported is under control. When nobody
      was unseated by a ready event, the players under control are those that sit or are
      being teleported, and no other. */
  lemma WhoIsControlled(terrain: Terrain, run: seq<State>, events: seq<Event>, k: nat, p: nat)
    requires Run(terrain, run, events) && k < |run| && p in run[k].crew.players
    ensures var (c, player) := (run[k].crew, run[k].crew.players[p]);
      && (Sits(c, p) ==> player.controlled && !player.airborne)
      && (player.ready ==> (player.airborne <==> !Sits(c, p)))
      && (player.teleport.Some? ==> player.controlled)
      && (NobodyUnseated(run, events, k) ==> (player.controlled <==> Sits(c, p) || player.teleport.Some?))
  {
    SteeredAlways(terrain, run, events, k);
    assert Held(run[k].crew, p);
    if NobodyUnseated(run, events, k) {
      assert Free(run[k].crew);
      assert FreeAt(run[k].crew, p);
    }
    hide Run, NobodyUnseated, FreeUpTo, GridOk, OwnSeats, Sits;
  }

  /** What becomes of a boarding in a tick: after 600 ticks it is too late, even for a client that
      confirms now; before, a confirmed pilot takes its seat, and another one waits on. */
  lemma BoardingDecided(c: Crew, p: nat, confirmed: set<nat>)
    requires GridOk(c) && p in c.players && c.players[p].racer.Some?
    requires c.players[p].transfer == Some(Boarding) && c.players[p].teleport.Some?
    ensures var d := AdvanceTeleport(c, p, confirmed);
      && p in d.players
      && var (age, player) := (c.players[p].teleport.value, d.players[p]);
         if age >= 600 then player.transfer == Some(ToLobby) && player.teleport == Some(0) && !Enlisted(d, p) && !Sits(d, p)
         else if p in confirmed then
           player.transfer.None? && player.teleport.None? && Sits(d, p) && (Enlisted(d, p) <==> Enlisted(c, p))
         else d == c.(players := c.players[p := c.players[p].(teleport := Some(age + 1))])
  {
    assert RacerOk(c, p);
    hide EndTeleport, Sits, GridOk, Enlisted;
    var age := c.players[p].teleport.value;
    if age >= 600 {
      EndTeleportMarkers(c, p, TimedOut);
      TimeoutWithdraws(c, p);
      NotInTheSeat(c, p);
    } else if p in confirmed {
      EndTeleportMarkers(c, p, Confirmed);
      InTheSeat(c, p);
    }
  }

  /** A cancelled teleport is over, and no other begins: nobody is under control any more, and a
      pilot that was boarding is out of the round and flies. */
  lemma CancelledIsOver(c: Crew, p: nat)
    requires GridOk(c) && p in c.players && c.players[p].transfer.Some? && c.players[p].teleport.Some?
    ensures var d := CancelTeleport(c, p);
      && p in d.players
      && var (player, next) := (c.players[p], d.players[p]);
      && next.transfer.None? && next.teleport.None? && !next.controlled
      && if player.transfer == Some(Boarding) then next.airborne && !Enlisted(d, p) && !Sits(d, p)
         else d == c.(players := c.players[p := player.(transfer := None, teleport := None, controlled := false)])
  {
    assert c.players[p].transfer.value.Boarding? || c.players[p].transfer.value.ToLobby?;
    hide *;
    if c.players[p].transfer == Some(Boarding) {
      CancelledBoarding(c, p);
    } else {
      CancelledLobby(c, p);
    }
  }

  lemma CancelledBoarding(c: Crew, p: nat)
    requires GridOk(c) && p in c.players && c.players[p].transfer == Some(Boarding) && c.players[p].teleport.Some?
    ensures var d := CancelTeleport(c, p);
      && p in d.players && var next := d.players[p];
      && next.transfer.None? && next.teleport.None? && !next.controlled && next.airborne && !Enlisted(d, p) && !Sits(d, p)
  {
    EndTeleportIs(c, p, Cancelled);
    WithdrawnKart(c, p);
    hide EndTeleport, GridOk, Withdraw, Fly, Unmarked, Sits, Enlisted;
    FlownIsOut(Withdraw(Unmarked(c, p), p), p);
  }

  lemma CancelledLobby(c: Crew, p: nat)
    requires p in c.players && c.players[p].transfer == Some(ToLobby) && c.players[p].teleport.Some?
    ensures CancelTeleport(c, p) == c.(players := c.players[p := c.players[p].(transfer := None, teleport := None, controlled := false)])
  {
    EndTeleportIs(c, p, Cancelled);
    hide EndTeleport, Withdraw, Fly;
  }

  lemma FlownIsOut(c: Crew, p: nat)
    requires KartsOk(c) && p in c.players && RacerOk(c, p) && !Enlisted(c, p) && c.players[p].transfer.None? && c.players[p].teleport.None?
    ensures var d := Fly(c, p);
      && p in d.players && var e := Release(d, p);
      && d.players[p] == c.players[p].(airborne := true) && !Enlisted(e, p) && !Sits(e, p)
  {
    SeatIsUnique(c, p);
    hide SeatOf, KartsOk, Without;
  }

  lemma InTheSeat(c: Crew, p: nat)
    requires GridOk(c) && p in c.players && c.players[p].racer.Some? && c.players[p].transfer == Some(Boarding)
    ensures var d := EndTeleport(c, p, Confirmed); Sits(d, p) && (Enlisted(d, p) <==> Enlisted(c, p))
  {
    assert RacerOk(c, p);
    SeatIsUnique(c, p);
    hide GridOk, SeatOf;
  }

  lemma NotInTheSeat(c: Crew, p: nat)
    requires GridOk(c) && p in c.players && c.players[p].racer.Some? && c.players[p].transfer == Some(Boarding)
    ensures !Sits(EndTeleport(c, p, TimedOut), p)
  {
    EndTeleportIs(c, p, TimedOut);
    WithdrawnKart(c, p);
    hide EndTeleport, GridOk, Withdraw, SendToLobby, Unmarked, Sits;
    SentIsOut(Withdraw(Unmarked(c, p), p), p);
  }

  lemma WithdrawnKart(c: Crew, p: nat)
    requires GridOk(c) && p in c.players
    ensures var out := Withdraw(Unmarked(c, p), p);
            && KartsOk(out) && p in out.players && RacerOk(out, p) && !Enlisted(out, p)
            && out.players[p] == c.players[p].(transfer := None, teleport := None)
  {
    assert RacerOk(c, p);
    var done := Unmarked(c, p);
    assert KartsOk(done);
    SeatIsUnique(done, p);
    hide SeatOf, TablesOk;
  }

  lemma SentIsOut(c: Crew, p: nat)
    requires KartsOk(c) && p in c.players && RacerOk(c, p)
    ensures !Sits(SendToLobby(c, p), p)
  {
    SeatIsUnique(c, p);
    hide SeatOf, KartsOk, Without;
  }
}
