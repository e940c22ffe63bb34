/** The grid and the transfers in the form void-demo/src/race.rs and
    void-demo/src/travel.rs give them: observers that edit components in place.
    Each is proved to do what the function of the same step says. */
module Paddock {
  import opened Options
  import opened Pilots
  import opened Sequences

  /** `retain` on a passenger list. */
  method Retain(s: seq<nat>, p: nat) returns (r: seq<nat>)
    ensures r == Without(s, p)
  {
    r := [];
    for i := 0 to |s|
      invariant r + Without(s[i..], p) == Without(s, p)
    {
      assert s[i..][0] == s[i] && s[i..][1..] == s[i + 1..];
      assert Without(s[i..], p) == if s[i] == p then Without(s[i + 1..], p) else [s[i]] + Without(s[i + 1..], p);
      if s[i] != p {
        Regroup(r, [s[i]], Without(s[i + 1..], p));
        r := r + [s[i]];
      }
    }
  }

  method Position(s: seq<nat>, p: nat) returns (index: Option<nat>)
    ensures index.None? ==> p !in s
    ensures index.Some? ==> index.value < |s| && s[index.value] == p && p !in s[..index.value]
  {
    for i := 0 to |s|
      invariant p !in s[..i]
    {
      if s[i] == p {
        return Some(i);
      }
    }
    return None;
  }

  lemma {:induction false} RemoveAt(s: seq<nat>, p: nat, i: nat)
    requires i < |s| && s[i] == p && p !in s[..i]
    ensures RemoveFirst(s, p) == s[..i] + s[i + 1..]
  {
    if i > 0 {
      assert s[0] == s[..i][0];
      assert s[1..][..i - 1] == s[..i][1..];
      RemoveAt(s[1..], p, i - 1);
      assert s[..i] + s[i + 1..] == [s[0]] + (s[1..][..i - 1] + s[1..][i..]);
    }
  }

  class Grid {
    var players: map<nat, Player>
    var order: seq<nat>
    var roster: seq<nat>
    var karts: map<nat, Kart>
    var nextPlayer: nat
    var nextKart: nat

    constructor ()
      ensures View() == Crew(map[], [], [], map[], 0, 0)
    {
      players, order, roster, karts, nextPlayer, nextKart := map[], [], [], map[], 0, 0;
    }

    ghost function View(): Crew
      reads this
    {
      Crew(players, order, roster, karts, nextPlayer, nextKart)
    }

    // ---- travel ----------------------------------------------------------------

    method FindSeat(p: nat) returns (seat: Option<nat>)
      ensures seat == SeatOf(karts, p, nextKart)
    {
      seat := None;
      for k := 0 to nextKart
        invariant seat == SeatOf(karts, p, k)
      {
        if seat.None? && k in karts && karts[k].pilot == p {
          seat := Some(k);
        }
      }
    }

    method TakeOff(p: nat)
      modifies this
      ensures View() == Fly(old(View()), p)
    {
      var seat := FindSeat(p);
      if seat.Some? {
        var k := seat.value;
        if p in karts[k].seats {
          var seats := Retain(karts[k].seats, p);
          karts := karts[k := karts[k].(seats := seats)];
        }
        karts := karts[k := karts[k].(hidden := true)];
      }
      if p in players {
        players := players[p := players[p].(airborne := true)];
      }
    }

    method ToLobby(p: nat)
      modifies this
      ensures View() == SendToLobby(old(View()), p)
    {
      TakeOff(p);
      if p in players {
        players := players[p := players[p].(transfer := Some(Transfer.ToLobby), teleport := Some(0), controlled := true)];
      }
    }

    method AllToLobby()
      modifies this
      ensures View() == EveryoneToLobby(old(View()), old(order))
    {
      var list := order;
      for i := 0 to |list|
        invariant View() == EveryoneToLobby(old(View()), list[..i])
      {
        hide SendToLobby;
        assert list[..i + 1][..i] == list[..i];
        if list[i] in players && players[list[i]].ready {
          ToLobby(list[i]);
        }
      }
      assert list[..|list|] == list;
    }

    method BoardKart(p: nat, k: nat)
      modifies this
      ensures View() == Board(old(View()), p, k)
    {
      if k in karts {
        karts := karts[k := karts[k].(hidden := false)];
      }
      if p in players {
        players := players[p := players[p].(transfer := Some(Boarding), teleport := Some(0), controlled := true)];
      }
    }

    method Drop(p: nat)
      modifies this
      ensures View() == Withdraw(old(View()), p)
    {
      var seat := FindSeat(p);
      if seat.Some? {
        karts := karts[seat.value := karts[seat.value].(participant := false)];
      }
    }

    /** The observer of a finished teleport. */
    method OnArrived(p: nat, outcome: Outcome)
      requires p in players
      modifies this
      ensures View() == Arrived(old(View()), p, outcome)
    {
      if players[p].transfer.None? {
        return;
      }
      var transfer := players[p].transfer.value;
      players := players[p := players[p].(transfer := None)];
      match transfer {
        case Boarding =>
          match outcome {
            case Confirmed =>
              var seat := FindSeat(p);
              if seat.None? {
                return;
              }
              var k := seat.value;
              if p !in karts[k].seats {
                karts := karts[k := karts[k].(seats := karts[k].seats + [p])];
              }
              players := players[p := players[p].(controlled := true, airborne := false)];
            case TimedOut =>
              hide SendToLobby;
              Drop(p);
              ToLobby(p);
            case Cancelled =>
              Drop(p);
              TakeOff(p);
              players := players[p := players[p].(controlled := false)];
          }
        case ToLobby =>
          players := players[p := players[p].(controlled := false)];
      }
    }

    method Finish(p: nat, outcome: Outcome)
      requires p in players
      modifies this
      ensures View() == EndTeleport(old(View()), p, outcome)
    {
      hide Arrived;
      players := players[p := players[p].(teleport := None)];
      OnArrived(p, outcome);
    }

    /** The barrier: every teleport in flight ages by a tick. */
    method RunBarrier(confirmed: set<nat>)
      modifies this
      ensures View() == Barrier(old(View()), old(order), confirmed)
    {
      var list := order;
      for i := 0 to |list|
        invariant View() == Barrier(old(View()), list[..i], confirmed)
      {
        hide EndTeleport;
        var p := list[i];
        assert list[..i + 1][..i] == list[..i];
        if p in players && players[p].teleport.Some? {
          var age := players[p].teleport.value + 1;
          if age > TIMEOUT {
            Finish(p, TimedOut);
          } else if p in confirmed {
            Finish(p, Confirmed);
          } else {
            players := players[p := players[p].(teleport := Some(age))];
          }
        }
      }
      assert list[..|list|] == list;
    }

    method CancelOne(p: nat)
      requires p in players
      modifies this
      ensures View() == if old(players)[p].teleport.Some? then EndTeleport(old(View()), p, Cancelled) else old(View())
    {
      if players[p].teleport.Some? {
        Finish(p, Cancelled);
      }
    }

    // ---- the grid ----------------------------------------------------------------

    method JoinOne(p: nat)
      modifies this
      ensures View() == JoinGrid(old(View()), p)
    {
      if p in roster {
        return;
      }
      if |roster| >= GRID {
        return;
      }
      if p !in players {
        return;
      }
      roster := roster + [p];
      karts := karts[nextKart := Kart(p, false, None, 1, 0, true, [])];
      players := players[p := players[p].(racer := Some(Racer(1, nextKart, 0, None)))];
      nextKart := nextKart + 1;
    }

    method LeaveOne(p: nat) returns (left: bool)
      modifies this
      ensures View() == LeaveGrid(old(View()), p) && left == (p in old(roster))
    {
      var index := Position(roster, p);
      if index.None? {
        return false;
      }
      RemoveAt(roster, p, index.value);
      roster := roster[..index.value] + roster[index.value + 1..];
      if p in players {
        if players[p].racer.Some? {
          karts := karts - {players[p].racer.value.kart};
        }
        players := players[p := players[p].(racer := None)];
      }
      return true;
    }

    method OnLeave(p: nat)
      modifies this
      ensures View() == LeaveRace(old(View()), p)
    {
      hide SendToLobby, LeaveGrid;
      var left := LeaveOne(p);
      if !left {
        assert View() == old(View()) by { Stays(old(View()), p); }
        return;
      }
      ToLobby(p);
    }

    static lemma Stays(c: Crew, p: nat)
      requires p !in c.roster
      ensures LeaveGrid(c, p) == c
    {}

    method OnConnect()
      modifies this
      ensures View() == Connect(old(View()))
    {
      order := order + [nextPlayer];
      players := players[nextPlayer := Player(false, false, false, None, None, None)];
      nextPlayer := nextPlayer + 1;
    }

    method OnReady(p: nat)
      modifies this
      ensures View() == BecomeReady(old(View()), p)
    {
      if p !in players {
        return;
      }
      players := players[p := players[p].(ready := true)];
      hide Fly, JoinGrid;
      TakeOff(p);
      JoinOne(p);
    }

    method OnDisconnect(p: nat)
      modifies this
      ensures View() == Disconnect(old(View()), p)
    {
      hide LeaveGrid;
      if p !in players {
        return;
      }
      if players[p].ready {
        var _ := LeaveOne(p);
      }
      players := players - {p};
      order := Retain(order, p);
      karts := map k | k in karts :: karts[k].(seats := Without(karts[k].seats, p));
    }

    method FindKart(p: nat) returns (k: Option<nat>)
      ensures k == KartOf(View(), p)
    {
      if p in players && players[p].racer.Some? && players[p].racer.value.kart in karts {
        return Some(players[p].racer.value.kart);
      }
      return None;
    }

    method EnlistRoster()
      modifies this
      ensures View() == Enlist(old(View()), old(roster))
    {
      var list := roster;
      for i := 0 to |list|
        invariant View() == Enlist(old(View()), list[..i])
      {
        assert list[..i + 1][..i] == list[..i];
        var k := FindKart(list[i]);
        if k.Some? {
          karts := karts[k.value := karts[k.value].(participant := true)];
        }
      }
      assert list[..|list|] == list;
    }

    method BoardRoster()
      modifies this
      ensures View() == BoardAll(old(View()), old(roster))
    {
      var list := roster;
      for i := 0 to |list|
        invariant View() == BoardAll(old(View()), list[..i])
      {
        hide Board;
        var p := list[i];
        assert list[..i + 1][..i] == list[..i];
        var k := FindKart(p);
        if k.Some? && karts[k.value].participant {
          karts := karts[k.value := karts[k.value].(nextGate := 1, penalty := 0, finished := None)];
          players := players[p := players[p].(racer := Some(players[p].racer.value.(gate := 1, lapStart := 0, bestLap := None)))];
          BoardKart(p, k.value);
        }
      }
      assert list[..|list|] == list;
    }
  }
}
