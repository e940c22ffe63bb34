/** The storms a lightning power-up leaves over the rivals' karts, in
    void-demo/src/items.rs. */
module Lightning {
  import opened Options

  const LIGHTNING_STRIKES := 3
  const LIGHTNING_PERIOD := 6
  const LIGHTNING_SPREAD := 18

  datatype Storm = Storm(delay: nat, remaining: nat)

  /** What one tick does to a kart; `first` marks the strike that slows it down. */
  datatype Outcome = Outcome(storm: Option<Storm>, struck: bool, first: bool)

  // ---- delays ------------------------------------------------------------------------

  /** The delay of the index-th rival: a 16-bit sum that wraps, then the remainder. */
  function Delay(roll: nat, index: nat): (d: nat)
    ensures d < LIGHTNING_SPREAD
  {
    (roll % 0x1_0000 + 2 * index) % 0x1_0000 % LIGHTNING_SPREAD
  }

  function Fresh(roll: nat, index: nat): Storm {
    Storm(Delay(roll, index), LIGHTNING_STRIKES)
  }

  /** Up to eight rivals are struck at different ticks, whether the sum wraps or not. */
  lemma DelaysAreDistinct(roll: nat, i: nat, j: nat)
    requires i < j < 8
    ensures Delay(roll, i) != Delay(roll, j)
  {
    hide Delay;
    var r := roll % 0x1_0000;
    DelayOfLowBits(roll, i);
    DelayOfLowBits(roll, j);
    WrappedDelay(r, i);
    WrappedDelay(r, j);
    var a := if r + 2 * i < 0x1_0000 then r + 2 * i else r + 2 * i + 2;
    var b := if r + 2 * j < 0x1_0000 then r + 2 * j else r + 2 * j + 2;
    ApartModulo(a, b);
  }

  lemma DelayOfLowBits(roll: nat, i: nat)
    ensures Delay(roll, i) == Delay(roll % 0x1_0000, i)
  {}

  /** With a ninth rival some roll makes two delays equal. */
  lemma NinthRivalCollides()
    ensures Delay(65520, 0) == Delay(65520, 8)
  {}

  /** Wrapping around costs two: the modulus is sixteen over a multiple of the spread. */
  lemma WrappedDelay(r: nat, i: nat)
    requires r < 0x1_0000 && i < 9
    ensures Delay(r, i) == (if r + 2 * i < 0x1_0000 then r + 2 * i else r + 2 * i + 2) % LIGHTNING_SPREAD
  {
    if r + 2 * i >= 0x1_0000 {
      assert (r + 2 * i) % 0x1_0000 == r + 2 * i - 0x1_0000;
      assert r + 2 * i + 2 == (r + 2 * i - 0x1_0000) + 18 * 3641;
    }
  }

  lemma ApartModulo(a: nat, b: nat)
    requires 0 < b - a < LIGHTNING_SPREAD
    ensures a % LIGHTNING_SPREAD != b % LIGHTNING_SPREAD
  {}

  // ---- one tick ------------------------------------------------------------------------

  /** The `storms` system on one kart. A storm over a kart that no longer races goes. */
  function Age(storm: Storm, racing: bool): (Storm, bool, bool)
    requires storm.remaining > 0
  {
    if !racing then (storm, false, true)
    else if storm.delay > 0 then (storm.(delay := storm.delay - 1), false, false)
    else (Storm(LIGHTNING_PERIOD - 1, storm.remaining - 1), true, storm.remaining == 1)
  }

  /** A tick of a racing phase. A cast is queued before the storms run, a removal after:
      the cast replaces the component, then the removal takes whatever is there. */
  function Tick(storm: Option<Storm>, cast: Option<nat>, racing: bool): Outcome
    requires storm.Some? ==> storm.value.remaining > 0
  {
    var aged := if storm.Some? then Age(storm.value, racing) else (Storm(0, 0), false, false);
    var inserted := if cast.Some? then Some(Storm(cast.value, LIGHTNING_STRIKES))
                    else if storm.Some? then Some(aged.0) else None;
    Outcome(if aged.2 then None else inserted, aged.1, aged.1 && storm.value.remaining == LIGHTNING_STRIKES)
  }

  /** A kart's ticks: the casts on it and whether it races, one entry a tick. */
  datatype Turn = Turn(cast: Option<nat>, racing: bool)

  ghost predicate Run(storms: seq<Option<Storm>>, turns: seq<Turn>) {
    && |storms| == |turns| + 1
    && (forall k :: 0 <= k < |storms| && storms[k].Some? ==> storms[k].value.remaining > 0)
    && (forall k :: 0 <= k < |turns| ==> storms[k + 1] == Tick(storms[k], turns[k].cast, turns[k].racing).storm)
  }

  ghost predicate StruckAt(storms: seq<Option<Storm>>, turns: seq<Turn>, k: nat)
    requires Run(storms, turns) && k < |turns|
  {
    Tick(storms[k], turns[k].cast, turns[k].racing).struck
  }

  ghost predicate FirstAt(storms: seq<Option<Storm>>, turns: seq<Turn>, k: nat)
    requires Run(storms, turns) && k < |turns|
  {
    Tick(storms[k], turns[k].cast, turns[k].racing).first
  }

  /** No further cast and racing on, from tick `from` to before `to`. */
  ghost predicate Undisturbed(turns: seq<Turn>, from: nat, to: nat) {
    forall k :: from <= k < to && k < |turns| ==> turns[k].cast.None? && turns[k].racing
  }

  /** The storm after a cast with that delay and the ticks since, until it is gone. */
  function StormAfter(delay: nat, age: nat): Option<Storm> {
    if age <= delay then Some(Storm(delay - age, 3))
    else if age <= delay + 6 then Some(Storm(delay + 6 - age, 2))
    else if age <= delay + 12 then Some(Storm(delay + 12 - age, 1))
    else None
  }

  lemma {:induction false} StormRuns(storms: seq<Option<Storm>>, turns: seq<Turn>, cast: nat, delay: nat, age: nat)
    requires Run(storms, turns) && cast < |turns| && storms[cast + 1] == Some(Storm(delay, LIGHTNING_STRIKES))
    requires age <= delay + 13 && cast + 1 + age < |storms| && Undisturbed(turns, cast + 1, cast + 1 + age)
    ensures storms[cast + 1 + age] == StormAfter(delay, age)
    decreases age
  {
    if age > 0 {
      StormRuns(storms, turns, cast, delay, age - 1);
      assert storms[cast + 1 + age] == Tick(storms[cast + age], turns[cast + age].cast, turns[cast + age].racing).storm;
      assert turns[cast + age].cast.None? && turns[cast + age].racing;
    }
  }

  /** A victim that races on and is not cast on again is struck exactly at
      cast + 1 + delay + 6n for n = 0, 1, 2, the first time with the full effect, and
      then the storm is over. */
  lemma StruckThreeTimes(storms: seq<Option<Storm>>, turns: seq<Turn>, cast: nat, delay: nat, k: nat)
    requires Run(storms, turns) && cast < |turns| && storms[cast + 1] == Some(Storm(delay, LIGHTNING_STRIKES))
    requires cast < k <= cast + 13 + delay && k < |turns| && Undisturbed(turns, cast + 1, k + 1)
    ensures StruckAt(storms, turns, k) <==>
            exists n: nat :: n < LIGHTNING_STRIKES && k == cast + 1 + delay + LIGHTNING_PERIOD * n
    ensures FirstAt(storms, turns, k) <==> k == cast + 1 + delay
    ensures k == cast + 13 + delay ==> storms[k + 1].None?
  {
    var age := k - cast - 1;
    StormRuns(storms, turns, cast, delay, age);
    StormRuns(storms, turns, cast, delay, age + 1);
    assert turns[k].cast.None? && turns[k].racing;
    var n := if age <= delay then 0 else if age <= delay + 6 then 1 else 2;
    assert StruckAt(storms, turns, k) <==> k == cast + 1 + delay + LIGHTNING_PERIOD * n;
    if m: nat :| m < LIGHTNING_STRIKES && k == cast + 1 + delay + LIGHTNING_PERIOD * m {
      assert m == n;
    }
  }

  /** A cast takes hold exactly when no storm over the kart ends in the same tick; one
      on the tick of a last strike is lost. */
  lemma CastTakesHold(storm: Option<Storm>, delay: nat, racing: bool)
    requires storm.Some? ==> storm.value.remaining > 0
    ensures Tick(storm, Some(delay), racing).storm == Some(Storm(delay, LIGHTNING_STRIKES)) <==> !Ends(storm, racing)
  {}

  /** The storm over a kart is removed in this tick. */
  predicate Ends(storm: Option<Storm>, racing: bool) {
    storm.Some? && (!racing || (storm.value.delay == 0 && storm.value.remaining == 1))
  }

  /** A cast that took hold at tick c, with nothing cast and the kart racing up to tick t. */
  ghost predicate Casts(storms: seq<Option<Storm>>, turns: seq<Turn>, c: nat, t: nat, delay: nat)
    requires Run(storms, turns) && t <= |turns|
  {
    && c < t && turns[c].cast == Some(delay) && !Ends(storms[c], turns[c].racing)
    && Undisturbed(turns, c + 1, t)
  }

  /** Every storm goes back to the last cast. */
  lemma {:induction false} StormHasCast(storms: seq<Option<Storm>>, turns: seq<Turn>, t: nat) returns (c: nat, delay: nat)
    requires Run(storms, turns) && storms[0].None? && t < |storms| && storms[t].Some?
    ensures Casts(storms, turns, c, t, delay) && t - c - 1 <= delay + 12 && storms[t] == StormAfter(delay, t - c - 1)
  {
    assert storms[t] == Tick(storms[t - 1], turns[t - 1].cast, turns[t - 1].racing).storm;
    if turns[t - 1].cast.Some? {
      c, delay := t - 1, turns[t - 1].cast.value;
    } else {
      c, delay := StormHasCast(storms, turns, t - 1);
    }
  }

  /** From a clear sky, whatever is cast and whoever stops racing: a kart is struck in a tick if
      and only if it races in it and the last cast on it took hold that many ticks ago, with the
      kart racing ever since. */
  lemma EveryStrike(storms: seq<Option<Storm>>, turns: seq<Turn>, t: nat)
    requires Run(storms, turns) && storms[0].None? && t < |turns|
    ensures StruckAt(storms, turns, t) <==>
            turns[t].racing && exists c: nat, delay: nat, n: nat {:trigger Casts(storms, turns, c, t, delay), LIGHTNING_PERIOD * n} ::
              Casts(storms, turns, c, t, delay) && n < LIGHTNING_STRIKES && t == c + 1 + delay + LIGHTNING_PERIOD * n
    ensures !turns[t].racing && turns[t].cast.None? ==> storms[t + 1].None?
  {
    assert storms[t + 1] == Tick(storms[t], turns[t].cast, turns[t].racing).storm;
    if StruckAt(storms, turns, t) {
      var c, delay := StormHasCast(storms, turns, t);
      var n := if t - c - 1 <= delay then 0 else if t - c - 1 <= delay + 6 then 1 else 2;
      assert Casts(storms, turns, c, t, delay) && t == c + 1 + delay + LIGHTNING_PERIOD * n;
    }
    if c: nat, delay: nat, n: nat {:trigger Casts(storms, turns, c, t, delay), LIGHTNING_PERIOD * n} :|
        Casts(storms, turns, c, t, delay) && turns[t].racing && n < LIGHTNING_STRIKES && t == c + 1 + delay + LIGHTNING_PERIOD * n {
      assert storms[c + 1] == Tick(storms[c], turns[c].cast, turns[c].racing).storm;
      CastTakesHold(storms[c], delay, turns[c].racing);
      StormRuns(storms, turns, c, delay, t - c - 1);
    }
  }

  // ---- a cast on all rivals ------------------------------------------------------------------

  /** The casts of a tick and the karts that race in it. */
  datatype Moment = Moment(casts: map<nat, nat>, racers: set<nat>)

  function Over<T>(karts: map<nat, T>, k: nat): Option<T> {
    if k in karts then Some(karts[k]) else None
  }

  predicate Alive(storms: map<nat, Storm>) {
    forall k :: k in storms ==> storms[k].remaining > 0
  }

  function After(storms: map<nat, Storm>, casts: map<nat, nat>, racers: set<nat>, k: nat): Outcome
    requires Alive(storms)
  {
    Tick(Over(storms, k), Over(casts, k), k in racers)
  }

  ghost predicate FieldRun(fields: seq<map<nat, Storm>>, moments: seq<Moment>) {
    && |fields| == |moments| + 1
    && (forall t :: 0 <= t < |fields| ==> Alive(fields[t]))
    && (forall t, k {:trigger Over(fields[t + 1], k)} :: 0 <= t < |moments| ==>
         Over(fields[t + 1], k) == After(fields[t], moments[t].casts, moments[t].racers, k).storm)
  }

  /** The run as one kart sees it. */
  function StormsOf(fields: seq<map<nat, Storm>>, k: nat): (r: seq<Option<Storm>>)
    ensures |r| == |fields| && forall t :: 0 <= t < |r| ==> r[t] == Over(fields[t], k)
  {
    seq(|fields|, t requires 0 <= t < |fields| => Over(fields[t], k))
  }

  function TurnsOf(moments: seq<Moment>, k: nat): (r: seq<Turn>)
    ensures |r| == |moments| && forall t :: 0 <= t < |r| ==> r[t] == Turn(Over(moments[t].casts, k), k in moments[t].racers)
  {
    seq(|moments|, t requires 0 <= t < |moments| => Turn(Over(moments[t].casts, k), k in moments[t].racers))
  }

  lemma KartRuns(fields: seq<map<nat, Storm>>, moments: seq<Moment>, k: nat)
    requires FieldRun(fields, moments)
    ensures Run(StormsOf(fields, k), TurnsOf(moments, k))
  {
    var (storms, turns) := (StormsOf(fields, k), TurnsOf(moments, k));
    forall t | 0 <= t < |turns| ensures storms[t + 1] == Tick(storms[t], turns[t].cast, turns[t].racing).storm {
      assert Over(fields[t + 1], k) == After(fields[t], moments[t].casts, moments[t].racers, k).storm;
    }
    hide Tick;
  }

  /** What the power-up queues: a fresh storm over each rival in turn. */
  function Bolts(roll: nat, rivals: seq<nat>): map<nat, nat> {
    if rivals == [] then map[]
    else
      var n := |rivals| - 1;
      Bolts(roll, rivals[..n])[rivals[n] := Delay(roll, n)]
  }

  predicate Distinct(karts: seq<nat>) {
    forall i, j :: 0 <= i < j < |karts| ==> karts[i] != karts[j]
  }

  lemma {:induction false} BoltsAt(roll: nat, rivals: seq<nat>, i: nat)
    requires Distinct(rivals) && i < |rivals|
    ensures Over(Bolts(roll, rivals), rivals[i]) == Some(Delay(roll, i))
  {
    hide Delay;
    if i < |rivals| - 1 {
      BoltsAt(roll, rivals[..|rivals| - 1], i);
    }
  }

  /** Once it is over, a storm stays over. */
  lemma {:induction false} StaysCalm(storms: seq<Option<Storm>>, turns: seq<Turn>, from: nat, to: nat)
    requires Run(storms, turns) && from <= to < |storms| && storms[from].None? && Undisturbed(turns, from, to)
    ensures storms[to].None?
  {
    if from < to {
      StaysCalm(storms, turns, from, to - 1);
      assert storms[to] == Tick(storms[to - 1], turns[to - 1].cast, turns[to - 1].racing).storm;
    }
  }

  /** The same for any tick after the cast. */
  lemma StruckExactly(storms: seq<Option<Storm>>, turns: seq<Turn>, cast: nat, delay: nat, k: nat)
    requires Run(storms, turns) && cast < |turns| && storms[cast + 1] == Some(Storm(delay, LIGHTNING_STRIKES))
    requires cast < k < |turns| && Undisturbed(turns, cast + 1, k + 1)
    ensures StruckAt(storms, turns, k) <==>
            exists n: nat :: n < LIGHTNING_STRIKES && k == cast + 1 + delay + LIGHTNING_PERIOD * n
    ensures FirstAt(storms, turns, k) <==> k == cast + 1 + delay
    ensures k >= cast + 13 + delay ==> storms[k + 1].None?
  {
    if k <= cast + 13 + delay {
      StruckThreeTimes(storms, turns, cast, delay, k);
    } else {
      StruckThreeTimes(storms, turns, cast, delay, cast + 13 + delay);
      StaysCalm(storms, turns, cast + 14 + delay, k);
      StaysCalm(storms, turns, cast + 14 + delay, k + 1);
    }
  }

  ghost predicate StruckNow(fields: seq<map<nat, Storm>>, moments: seq<Moment>, k: nat, t: nat)
    requires FieldRun(fields, moments) && t < |moments|
  {
    After(fields[t], moments[t].casts, moments[t].racers, k).struck
  }

  ghost predicate FirstNow(fields: seq<map<nat, Storm>>, moments: seq<Moment>, k: nat, t: nat)
    requires FieldRun(fields, moments) && t < |moments|
  {
    After(fields[t], moments[t].casts, moments[t].racers, k).first
  }

  lemma RivalIsStruck(fields: seq<map<nat, Storm>>, moments: seq<Moment>, cast: nat, roll: nat, rivals: seq<nat>, i: nat, t: nat)
    requires FieldRun(fields, moments) && Distinct(rivals) && i < |rivals| && cast < t < |moments|
    requires moments[cast].casts == Bolts(roll, rivals) && !Ends(Over(fields[cast], rivals[i]), rivals[i] in moments[cast].racers)
    requires Undisturbed(TurnsOf(moments, rivals[i]), cast + 1, t + 1)
    ensures Over(fields[cast + 1], rivals[i]) == Some(Fresh(roll, i))
    ensures StruckNow(fields, moments, rivals[i], t) <==>
            exists n: nat :: n < LIGHTNING_STRIKES && t == cast + 1 + Delay(roll, i) + LIGHTNING_PERIOD * n
    ensures FirstNow(fields, moments, rivals[i], t) <==> t == cast + 1 + Delay(roll, i)
    ensures t >= cast + 13 + Delay(roll, i) ==> rivals[i] !in fields[t + 1]
  {
    hide Delay, Tick, Bolts, Ends, Undisturbed;
    var k := rivals[i];
    KartRuns(fields, moments, k);
    BoltsAt(roll, rivals, i);
    var racing := k in moments[cast].racers;
    CastTakesHold(Over(fields[cast], k), Delay(roll, i), racing);
    assert Over(fields[cast + 1], k) == After(fields[cast], moments[cast].casts, moments[cast].racers, k).storm;
    StruckExactly(StormsOf(fields, k), TurnsOf(moments, k), cast, Delay(roll, i), t);
  }

  /** One cast on up to eight rivals, over none of whom a storm just ends: as long as they race
      on and nobody casts again, each is struck at exactly three ticks, no two of them for the
      first time at the same tick, and after thirty ticks the sky is clear. */
  lemma OneCast(fields: seq<map<nat, Storm>>, moments: seq<Moment>, cast: nat, roll: nat, rivals: seq<nat>, last: nat)
    requires FieldRun(fields, moments) && cast < last <= |moments| && Distinct(rivals) && |rivals| <= 8
    requires moments[cast].casts == Bolts(roll, rivals)
    requires forall i :: 0 <= i < |rivals| ==>
      && !Ends(Over(fields[cast], rivals[i]), rivals[i] in moments[cast].racers)
      && Undisturbed(TurnsOf(moments, rivals[i]), cast + 1, last)
    ensures forall i, t :: 0 <= i < |rivals| && cast < t < last ==>
      && (StruckNow(fields, moments, rivals[i], t) <==>
           exists n: nat :: n < LIGHTNING_STRIKES && t == cast + 1 + Delay(roll, i) + LIGHTNING_PERIOD * n)
      && (FirstNow(fields, moments, rivals[i], t) <==> t == cast + 1 + Delay(roll, i))
    ensures forall i, j, t :: 0 <= i < j < |rivals| && cast < t < last ==>
      !(FirstNow(fields, moments, rivals[i], t) && FirstNow(fields, moments, rivals[j], t))
    ensures last > cast + 30 ==> forall i :: 0 <= i < |rivals| ==> rivals[i] !in fields[last]
  {
    assert |fields| == |moments| + 1;
    hide FieldRun, StruckNow, FirstNow, Delay, Bolts, Ends, Distinct;
    forall i, t | 0 <= i < |rivals| && cast < t < last
      ensures StruckNow(fields, moments, rivals[i], t) <==>
              exists n: nat :: n < LIGHTNING_STRIKES && t == cast + 1 + Delay(roll, i) + LIGHTNING_PERIOD * n
      ensures FirstNow(fields, moments, rivals[i], t) <==> t == cast + 1 + Delay(roll, i)
    {
      RivalIsStruck(fields, moments, cast, roll, rivals, i, t);
    }
    if last > cast + 30 {
      forall i | 0 <= i < |rivals| ensures rivals[i] !in fields[last] {
        RivalIsStruck(fields, moments, cast, roll, rivals, i, last - 1);
      }
    }
    forall i, j | 0 <= i < j < |rivals| ensures Delay(roll, i) != Delay(roll, j) { DelaysAreDistinct(roll, i, j); }
  }

  // ---- the loop over all storms -----------------------------------------------------------------

  class Field {
    var storms: map<nat, Storm>

    constructor ()
      ensures storms == map[]
    {
      storms := map[];
    }

    /** The loop: what every storm becomes, whom it strikes, and which are over. */
    method AgeAll(racers: set<nat>) returns (struck: set<nat>, done: set<nat>)
      requires Alive(storms)
      modifies this
      ensures storms.Keys == old(storms).Keys
      ensures struck <= storms.Keys && done <= storms.Keys
      ensures forall k :: k in storms ==> (storms[k], k in struck, k in done) == Age(old(storms)[k], k in racers)
    {
      ghost var before := storms;
      done := {};
      struck := {};
      var rest := storms.Keys;
      while rest != {}
        invariant rest <= storms.Keys == before.Keys
        invariant forall k :: k in rest ==> storms[k] == before[k] && k !in struck && k !in done
        invariant forall k :: k in before && k !in rest ==> (storms[k], k in struck, k in done) == Age(before[k], k in racers)
        invariant struck <= before.Keys && done <= before.Keys
        decreases rest
      {
        var kart :| kart in rest;
        rest := rest - {kart};
        var storm := storms[kart];
        if kart !in racers {
          done := done + {kart};
        } else if storm.delay > 0 {
          storms := storms[kart := storm.(delay := storm.delay - 1)];
        } else {
          storms := storms[kart := Storm(LIGHTNING_PERIOD - 1, storm.remaining - 1)];
          struck := struck + {kart};
          if storm.remaining == 1 {
            done := done + {kart};
          }
        }
      }
    }

    /** The casts of a tick, then the `storms` loop, then the removals it queued. */
    method Storms(casts: map<nat, nat>, racers: set<nat>) returns (struck: set<nat>)
      requires Alive(storms)
      modifies this
      ensures Alive(storms)
      ensures forall k :: Over(storms, k) == After(old(storms), casts, racers, k).storm
      ensures forall k :: k in struck <==> After(old(storms), casts, racers, k).struck
    {
      var done;
      struck, done := AgeAll(racers);
      storms := storms + (map k | k in casts :: Storm(casts[k], LIGHTNING_STRIKES));
      storms := storms - done;
    }
  }
}
