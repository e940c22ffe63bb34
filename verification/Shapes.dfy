/** The table of collision shapes emitted by void-data/build.rs: consecutive states
    with one shape share an arm of the match on the state id. */
module Shapes {
  import opened Options

  /** The states from `min` on, one shape each. */
  datatype Table = Table(min: int, shapes: seq<nat>)

  /** An arm `first..=last => shape`. */
  datatype Arm = Arm(first: int, last: int, shape: nat)

  predicate Covers(arm: Arm, id: int) {
    arm.first <= id <= arm.last
  }

  /** The first arm that covers the id, as a match tries them; `None` is the default arm. */
  function Lookup(arms: seq<Arm>, id: int): Option<nat> {
    if arms == [] then None
    else if Covers(arms[0], id) then Some(arms[0].shape)
    else Lookup(arms[1..], id)
  }

  predicate InTable(t: Table, id: int) {
    t.min <= id < t.min + |t.shapes|
  }

  /** Arms that continue each other from `first` up to `end`, neighbours of different shapes. */
  ghost predicate Runs(arms: seq<Arm>, first: int, end: int) {
    if arms == [] then first == end
    else
      && arms[0].first == first && first <= arms[0].last < end
      && Runs(arms[1..], arms[0].last + 1, end)
      && (|arms| > 1 ==> arms[0].shape != arms[1].shape)
  }

  /** Every arm has the shape of all its states. */
  ghost predicate Agree(arms: seq<Arm>, t: Table) {
    forall k :: 0 <= k < |arms| ==>
      && InTable(t, arms[k].first) && InTable(t, arms[k].last)
      && forall id :: Covers(arms[k], id) ==> t.shapes[id - t.min] == arms[k].shape
  }

  /** The grouping loop, for a table that is not empty: the source reads its first shape. */
  method Group(t: Table) returns (arms: seq<Arm>)
    requires t.shapes != []
    ensures Runs(arms, t.min, t.min + |t.shapes|) && Agree(arms, t)
  {
    arms := [];
    var start := t.min;
    var previous := t.shapes[0];
    for offset := 1 to |t.shapes|
      invariant t.min <= start < t.min + offset
      invariant forall k :: start - t.min <= k < offset ==> t.shapes[k] == previous
      invariant Runs(arms, t.min, start) && Agree(arms, t)
      invariant arms != [] ==> arms[|arms| - 1].shape != previous
    {
      var current := t.shapes[offset];
      if current != previous {
        var arm := Arm(start, t.min + offset - 1, previous);
        RunsGrow(arms, t.min, start, arm);
        AgreeGrow(arms, t, arm);
        arms := arms + [arm];
        start := t.min + offset;
        previous := current;
      }
    }
    var arm := Arm(start, t.min + |t.shapes| - 1, previous);
    RunsGrow(arms, t.min, start, arm);
    AgreeGrow(arms, t, arm);
    arms := arms + [arm];
  }

  lemma AgreeGrow(arms: seq<Arm>, t: Table, arm: Arm)
    requires Agree(arms, t) && InTable(t, arm.first) && InTable(t, arm.last)
    requires forall k :: arm.first - t.min <= k <= arm.last - t.min ==> t.shapes[k] == arm.shape
    ensures Agree(arms + [arm], t)
  {}

  lemma {:induction false} RunsGrow(arms: seq<Arm>, first: int, end: int, arm: Arm)
    requires Runs(arms, first, end) && arm.first == end && arm.first <= arm.last
    requires arms != [] ==> arms[|arms| - 1].shape != arm.shape
    ensures Runs(arms + [arm], first, arm.last + 1)
  {
    if arms != [] {
      assert (arms + [arm])[1..] == arms[1..] + [arm];
      RunsEnd(arms, first, end);
      RunsGrow(arms[1..], arms[0].last + 1, end, arm);
    } else {
      assert [] + [arm] == [arm];
      assert [arm][1..] == [];
    }
  }

  lemma {:induction false} RunsEnd(arms: seq<Arm>, first: int, end: int)
    requires Runs(arms, first, end) && arms != []
    ensures arms[|arms| - 1].last + 1 == end && first < end
  {
    if |arms| > 1 {
      RunsEnd(arms[1..], arms[0].last + 1, end);
    }
  }

  lemma AgreeTail(arms: seq<Arm>, t: Table)
    requires Agree(arms, t) && arms != []
    ensures Agree(arms[1..], t)
  {
    forall k | 0 <= k < |arms[1..]|
      ensures InTable(t, arms[1..][k].first) && InTable(t, arms[1..][k].last)
              && forall id :: Covers(arms[1..][k], id) ==> t.shapes[id - t.min] == arms[1..][k].shape {
      assert arms[1..][k] == arms[k + 1];
    }
  }

  /** The arms give exactly the states of their table the right shape. */
  lemma {:induction false} RunsLookUp(arms: seq<Arm>, t: Table, first: int, id: int)
    requires Runs(arms, first, t.min + |t.shapes|) && Agree(arms, t) && first >= t.min
    ensures Lookup(arms, id) == if first <= id < t.min + |t.shapes| then Some(t.shapes[id - t.min]) else None
  {
    if arms != [] {
      AgreeTail(arms, t);
      RunsLookUp(arms[1..], t, arms[0].last + 1, id);
      assert Agree(arms, t) && Covers(arms[0], id) ==> t.shapes[id - t.min] == arms[0].shape;
      RunsEnd(arms, first, t.min + |t.shapes|);
    }
  }

  /** The boundaries a table needs: a state whose shape differs from the one before it. */
  function Changes(shapes: seq<nat>): nat {
    if |shapes| <= 1 then 0
    else Changes(shapes[..|shapes| - 1]) + if shapes[|shapes| - 1] != shapes[|shapes| - 2] then 1 else 0
  }

  function Expected(tables: seq<Table>, id: int): Option<nat> {
    if tables == [] then None
    else if InTable(tables[0], id) then Some(tables[0].shapes[id - tables[0].min])
    else Expected(tables[1..], id)
  }

  lemma {:induction false} LookupAppend(a: seq<Arm>, b: seq<Arm>, id: int)
    ensures Lookup(a + b, id) == if Lookup(a, id).Some? then Lookup(a, id) else Lookup(b, id)
  {
    if a == [] {
      assert a + b == b;
    } else {
      assert (a + b)[0] == a[0] && (a + b)[1..] == a[1..] + b;
      LookupAppend(a[1..], b, id);
    }
  }

  lemma {:induction false} ExpectedAppend(a: seq<Table>, t: Table, id: int)
    ensures Expected(a + [t], id) == if Expected(a, id).Some? then Expected(a, id) else Expected([t], id)
  {
    if a == [] {
      assert a + [t] == [t];
    } else {
      assert (a + [t])[0] == a[0] && (a + [t])[1..] == a[1..] + [t];
      ExpectedAppend(a[1..], t, id);
    }
  }

  /** The whole match: for every id the shape of the first block it belongs to, and the
      default for the ids of none. */
  method Emit(tables: seq<Table>) returns (arms: seq<Arm>)
    requires forall i :: 0 <= i < |tables| ==> tables[i].shapes != []
    ensures forall id :: Lookup(arms, id) == Expected(tables, id)
  {
    arms := [];
    for i := 0 to |tables|
      invariant forall id :: Lookup(arms, id) == Expected(tables[..i], id)
    {
      var group := Group(tables[i]);
      forall id ensures Lookup(arms + group, id) == Expected(tables[..i] + [tables[i]], id) {
        LookupAppend(arms, group, id);
        ExpectedAppend(tables[..i], tables[i], id);
        RunsLookUp(group, tables[i], tables[i].min, id);
        assert [tables[i]][1..] == [];
      }
      assert tables[..i + 1] == tables[..i] + [tables[i]];
      arms := arms + group;
    }
    assert tables[..|tables|] == tables;
  }

  /** Arms of one shape each over a whole table: at least one more than there are changes. */
  ghost predicate Partition(arms: seq<Arm>, first: int, end: int) {
    if arms == [] then first == end
    else arms[0].first == first && first <= arms[0].last < end && Partition(arms[1..], arms[0].last + 1, end)
  }

  /** The shapes of the states from `from` on. */
  function Upto(t: Table, end: int): seq<nat>
    requires t.min <= end <= t.min + |t.shapes|
  {
    t.shapes[..end - t.min]
  }

  lemma {:induction false} PartitionEnd(arms: seq<Arm>, first: int, end: int)
    requires Partition(arms, first, end) && arms != []
    ensures Partition(arms[..|arms| - 1], first, arms[|arms| - 1].first)
    ensures first <= arms[|arms| - 1].first <= arms[|arms| - 1].last && arms[|arms| - 1].last + 1 == end
  {
    var n := |arms| - 1;
    if n > 0 {
      PartitionEnd(arms[1..], arms[0].last + 1, end);
      assert arms[1..][..n - 1] == arms[..n][1..];
      assert arms[1..][n - 1] == arms[n];
    }
  }

  /** Inside one arm nothing changes. */
  lemma {:induction false} ConstantStretch(shapes: seq<nat>, k: nat)
    requires 0 < k <= |shapes|
    requires forall i :: k <= i < |shapes| ==> shapes[i] == shapes[i - 1]
    ensures Changes(shapes) == Changes(shapes[..k])
  {
    if k < |shapes| {
      ConstantStretch(shapes[..|shapes| - 1], k);
      assert shapes[..|shapes| - 1][..k] == shapes[..k];
    } else {
      assert shapes[..k] == shapes;
    }
  }

  lemma ChangesAt(shapes: seq<nat>, k: nat)
    requires k < |shapes|
    ensures Changes(shapes[..k + 1]) == Changes(shapes[..k]) + if k > 0 && shapes[k] != shapes[k - 1] then 1 else 0
  {
    assert shapes[..k + 1][..k] == shapes[..k];
  }

  lemma AgreeAt(arms: seq<Arm>, t: Table, k: nat, id: int)
    requires Agree(arms, t) && k < |arms| && Covers(arms[k], id) && InTable(t, id)
    ensures t.shapes[id - t.min] == arms[k].shape
  {}

  lemma AgreeFront(arms: seq<Arm>, t: Table)
    requires Agree(arms, t) && arms != []
    ensures Agree(arms[..|arms| - 1], t)
  {}

  /** The last arm adds no boundary inside itself. */
  lemma LastStretch(arms: seq<Arm>, t: Table, end: int)
    requires arms != [] && Agree(arms, t) && t.min < end <= t.min + |t.shapes|
    requires var last := arms[|arms| - 1]; t.min <= last.first <= last.last && last.last + 1 == end
    ensures Changes(Upto(t, end)) == Changes(Upto(t, end)[..arms[|arms| - 1].first - t.min + 1])
  {
    hide Agree, Changes;
    var (n, shapes) := (|arms| - 1, Upto(t, end));
    var k := arms[n].first - t.min;
    forall i | k + 1 <= i < |shapes| ensures shapes[i] == shapes[i - 1] {
      AgreeAt(arms, t, n, t.min + i);
      AgreeAt(arms, t, n, t.min + i - 1);
    }
    ConstantStretch(shapes, k + 1);
  }

  /** The number of boundaries between arms, counted from the right. */
  lemma {:induction false} ArmsAndChanges(arms: seq<Arm>, t: Table, end: int, distinct: bool)
    requires arms != [] && Partition(arms, t.min, end) && t.min < end <= t.min + |t.shapes| && Agree(arms, t)
    requires distinct ==> forall k :: 0 < k < |arms| ==> arms[k].shape != arms[k - 1].shape
    ensures Changes(Upto(t, end)) + 1 <= |arms|
    ensures distinct ==> Changes(Upto(t, end)) + 1 == |arms|
    decreases |arms|
  {
    var n := |arms| - 1;
    var last := arms[n];
    PartitionEnd(arms, t.min, end);
    LastStretch(arms, t, end);
    var k := last.first - t.min;
    var shapes := Upto(t, end);
    ChangesAt(shapes, k);
    assert shapes[..k] == Upto(t, last.first);
    hide Agree, Changes;
    AgreeFront(arms, t);
    if n == 0 {
      assert k == 0;
      NoChanges();
    } else {
      PartitionStarts(arms[..n], t.min, last.first);
      ArmsAndChanges(arms[..n], t, last.first, distinct);
      PartitionEnd(arms[..n], t.min, last.first);
      AgreeAt(arms, t, n, last.first);
      AgreeAt(arms, t, n - 1, last.first - 1);
    }
  }

  lemma NoChanges()
    ensures Changes([]) == 0
  {}

  lemma PartitionStarts(arms: seq<Arm>, first: int, end: int)
    requires Partition(arms, first, end) && arms != []
    ensures first < end
  {
    PartitionEnd(arms, first, end);
  }

  lemma {:induction false} RunsArePartitions(arms: seq<Arm>, first: int, end: int)
    requires Runs(arms, first, end)
    ensures Partition(arms, first, end)
    ensures forall k :: 0 < k < |arms| ==> arms[k].shape != arms[k - 1].shape
  {
    if arms != [] {
      RunsArePartitions(arms[1..], arms[0].last + 1, end);
      assert forall k :: 0 < k < |arms| - 1 ==> arms[1..][k] == arms[k + 1];
      forall k | 0 < k < |arms| ensures arms[k].shape != arms[k - 1].shape {
        if k > 1 { assert arms[1..][k - 1].shape != arms[1..][k - 2].shape; }
      }
    }
  }

  /** The emitted arms of a table are as few as any arms of one shape each can be. */
  lemma FewestArms(t: Table, arms: seq<Arm>, other: seq<Arm>)
    requires t.shapes != []
    requires Runs(arms, t.min, t.min + |t.shapes|) && Agree(arms, t)
    requires Partition(other, t.min, t.min + |t.shapes|) && Agree(other, t)
    ensures |arms| == Changes(t.shapes) + 1 && |arms| <= |other|
  {
    var end := t.min + |t.shapes|;
    RunsArePartitions(arms, t.min, end);
    ArmsAndChanges(arms, t, end, true);
    ArmsAndChanges(other, t, end, false);
    assert Upto(t, end) == t.shapes;
  }
}
