/** The live ranking of void-demo/src/sidebar.rs: a stable sort, then an insertion
    loop that lets a kart keep its place while the difference is small. */
module Standings {
  import opened Options
  import opened Sequences

  const RANK_HYSTERESIS: real := 0.002

  datatype Row = Finished(player: nat, time: nat) | Racing(player: nat, lap: nat) | Result(round: nat, index: nat)
  {
    function Player(): Option<nat> {
      match this
      case Finished(p, _) => Some(p)
      case Racing(p, _) => Some(p)
      case Result(_, _) => None
    }
  }

  /** A row with its key: a time, or progress negated. */
  datatype Entry = Entry(row: Row, key: real)

  // ---- insertion -----------------------------------------------------------------------

  type Passing = (Entry, Entry) -> bool

  /** Moves x up past every entry it passes. */
  function InsertUp(passes: Passing, s: seq<Entry>, x: Entry): (r: seq<Entry>)
    ensures |r| == |s| + 1
  {
    var n := |s|;
    if n == 0 || !passes(s[n - 1], x) then s + [x] else InsertUp(passes, s[..n - 1], x) + [s[n - 1]]
  }

  /** Every entry in turn is moved up among those before it. */
  function Inserted(passes: Passing, s: seq<Entry>): (r: seq<Entry>)
    ensures |r| == |s|
  {
    if s == [] then [] else InsertUp(passes, Inserted(passes, s[..|s| - 1]), s[|s| - 1])
  }

  /** The inner loop: the entry at `start` against those above it. */
  method MoveUp(passes: Passing, a: array<Entry>, start: nat)
    requires start < a.Length
    modifies a
    ensures a[..start + 1] == InsertUp(passes, old(a[..start]), old(a[start]))
    ensures a[start + 1..] == old(a[start + 1..])
  {
    hide InsertUp;
    ghost var (before, x) := (a[..start], a[start]);
    var at := start;
    ghost var tail: seq<Entry> := [];
    assert before[..at] == before;
    assert InsertUp(passes, before, x) + tail == InsertUp(passes, before, x);
    while at > 0 && passes(a[at - 1], a[at])
      invariant at <= start && a[at] == x && a[..at] == before[..at] && a[start + 1..] == old(a[start + 1..])
      invariant tail == a[at + 1..start + 1]
      invariant InsertUp(passes, before, x) == InsertUp(passes, before[..at], x) + tail
    {
      ghost var moved := a[at - 1];
      assert moved == before[at - 1] by { assert a[..at][at - 1] == before[..at][at - 1]; }
      InsertedPast(passes, before, at, x);
      a[at - 1], a[at] := a[at], a[at - 1];
      Regroup(InsertUp(passes, before[..at - 1], x), [moved], tail);
      tail := [moved] + tail;
      at := at - 1;
    }
    assert at > 0 ==> a[at - 1] == before[at - 1] by { if at > 0 { assert a[..at][at - 1] == before[..at][at - 1]; } }
    InsertedHere(passes, before, at, x);
    assert a[..start + 1] == a[..at] + [a[at]] + a[at + 1..start + 1];
  }

  method InsertInPlace(passes: Passing, a: array<Entry>)
    modifies a
    ensures a[..] == Inserted(passes, old(a[..]))
  {
    ghost var was := a[..];
    for start := 0 to a.Length
      invariant a[..start] == Inserted(passes, was[..start]) && a[start..] == was[start..]
    {
      hide InsertUp;
      assert was[..start + 1][..start] == was[..start] && a[start..][0] == was[start..][0];
      MoveUp(passes, a, start);
      assert a[start + 1..] == was[start..][1..] == was[start + 1..];
    }
    assert was[..a.Length] == was;
  }

  lemma InsertedPast(passes: Passing, s: seq<Entry>, at: nat, x: Entry)
    requires 0 < at <= |s| && passes(s[at - 1], x)
    ensures InsertUp(passes, s[..at], x) == InsertUp(passes, s[..at - 1], x) + [s[at - 1]]
  {
    assert s[..at][..at - 1] == s[..at - 1];
  }

  lemma InsertedHere(passes: Passing, s: seq<Entry>, at: nat, x: Entry)
    requires at <= |s| && (at > 0 ==> !passes(s[at - 1], x))
    ensures InsertUp(passes, s[..at], x) == s[..at] + [x]
  {}

  // ---- laws of insertion -----------------------------------------------------------------

  lemma {:induction false} InsertUpPermutes(passes: Passing, s: seq<Entry>, x: Entry)
    ensures multiset(InsertUp(passes, s, x)) == multiset(s) + multiset{x}
  {
    var n := |s|;
    if n > 0 {
      InsertUpPermutes(passes, s[..n - 1], x);
      assert s == s[..n - 1] + [s[n - 1]];
    }
  }

  lemma {:induction false} InsertedPermutes(passes: Passing, s: seq<Entry>)
    ensures multiset(Inserted(passes, s)) == multiset(s)
  {
    if s != [] {
      var n := |s| - 1;
      InsertedPermutes(passes, s[..n]);
      InsertUpPermutes(passes, Inserted(passes, s[..n]), s[n]);
      assert s == s[..n] + [s[n]];
    }
  }

  type Relation = (Entry, Entry) -> bool

  ghost predicate Pairs(r: Relation, s: seq<Entry>) {
    forall i, j :: 0 <= i < j < |s| ==> r(s[i], s[j])
  }

  ghost predicate SwapsKeep(passes: Passing, r: Relation) {
    forall a, b :: passes(a, b) ==> r(b, a)
  }

  lemma {:induction false} InsertUpKeepsPairs(passes: Passing, r: Relation, s: seq<Entry>, x: Entry)
    requires Pairs(r, s) && SwapsKeep(passes, r) && forall i :: 0 <= i < |s| ==> r(s[i], x)
    ensures Pairs(r, InsertUp(passes, s, x))
  {
    var n := |s|;
    if n > 0 && passes(s[n - 1], x) {
      var (front, last) := (s[..n - 1], s[n - 1]);
      InsertUpKeepsPairs(passes, r, front, x);
      InsertUpHas(passes, front, x);
      var up := InsertUp(passes, front, x);
      forall i | 0 <= i < |up| ensures r(up[i], last) {
        assert up[i] in up;
        if up[i] != x {
          var k :| 0 <= k < |front| && front[k] == up[i];
          assert s[k] == front[k];
        }
      }
    }
  }

  lemma {:induction false} InsertUpHas(passes: Passing, s: seq<Entry>, x: Entry)
    ensures forall y :: y in InsertUp(passes, s, x) <==> y in s || y == x
  {
    InsertUpPermutes(passes, s, x);
    var up := InsertUp(passes, s, x);
    forall y ensures y in up <==> y in s || y == x {
      assert y in up <==> multiset(up)[y] > 0;
      assert y in s <==> multiset(s)[y] > 0;
    }
  }

  /** A relation that held of all pairs in order, and that every swap establishes, holds
      of all pairs afterwards. */
  lemma {:induction false} InsertedKeepsPairs(passes: Passing, r: Relation, s: seq<Entry>)
    requires Pairs(r, s) && SwapsKeep(passes, r)
    ensures Pairs(r, Inserted(passes, s))
  {
    if s != [] {
      var n := |s| - 1;
      var front := Inserted(passes, s[..n]);
      InsertedKeepsPairs(passes, r, s[..n]);
      InsertedPermutes(passes, s[..n]);
      forall i | 0 <= i < |front| ensures r(front[i], s[n]) {
        assert front[i] in multiset(front);
        assert front[i] in multiset(s[..n]);
        var k :| 0 <= k < n && s[..n][k] == front[i];
        assert s[k] == front[i];
      }
      InsertUpKeepsPairs(passes, r, front, s[n]);
    }
  }

  ghost predicate Settled(passes: Passing, s: seq<Entry>) {
    forall i :: 0 < i < |s| ==> !passes(s[i - 1], s[i])
  }

  ghost predicate OneWay(passes: Passing) {
    forall a, b :: passes(a, b) ==> !passes(b, a)
  }

  lemma {:induction false} InsertUpSettles(passes: Passing, s: seq<Entry>, x: Entry)
    requires Settled(passes, s) && OneWay(passes)
    ensures Settled(passes, InsertUp(passes, s, x))
    ensures s != [] ==> (InsertUp(passes, s, x)[|s|] == if passes(s[|s| - 1], x) then s[|s| - 1] else x)
  {
    var n := |s|;
    if n > 0 && passes(s[n - 1], x) {
      var (front, last) := (s[..n - 1], s[n - 1]);
      InsertUpSettles(passes, front, x);
      var up := InsertUp(passes, front, x);
      assert !passes(up[n - 1], last) by {
        if n > 1 && passes(front[n - 2], x) { assert up[n - 1] == s[n - 2]; }
      }
    }
  }

  /** When the loop ends no neighbours would be swapped any more. */
  lemma {:induction false} InsertedIsSettled(passes: Passing, s: seq<Entry>)
    requires OneWay(passes)
    ensures Settled(passes, Inserted(passes, s))
  {
    if s != [] {
      InsertedIsSettled(passes, s[..|s| - 1]);
      InsertUpSettles(passes, Inserted(passes, s[..|s| - 1]), s[|s| - 1]);
    }
  }

  lemma {:induction false} SettledStays(passes: Passing, s: seq<Entry>)
    requires Settled(passes, s)
    ensures Inserted(passes, s) == s
  {
    if s != [] {
      SettledStays(passes, s[..|s| - 1]);
      assert s == s[..|s| - 1] + [s[|s| - 1]];
    }
  }

  // ---- the two passes ----------------------------------------------------------------------

  /** Finished rows first, then by key; equal entries are not passed. */
  predicate Less(a: Entry, b: Entry) {
    if a.row.Racing? != b.row.Racing? then b.row.Racing? else a.key < b.key
  }

  predicate Precedes(above: Entry, below: Entry) {
    Less(below, above)
  }

  /** The place of a row's player in the rows shown before. */
  function Rank(previous: seq<Row>, row: Row): (r: Option<nat>)
    ensures r.Some? ==> r.value < |previous| && previous[r.value].Player() == row.Player()
                        && forall j :: 0 <= j < r.value ==> previous[j].Player() != row.Player()
    ensures r.None? ==> forall j :: 0 <= j < |previous| ==> previous[j].Player() != row.Player()
  {
    if previous == [] then None
    else if previous[0].Player() == row.Player() then Some(0)
    else
      match Rank(previous[1..], row)
      case None => None
      case Some(i) => Some(i + 1)
  }

  predicate Close(a: Entry, b: Entry) {
    a.row.Racing? && b.row.Racing? && -RANK_HYSTERESIS < a.key - b.key < RANK_HYSTERESIS
  }

  /** The lower of two close entries stood above the other before. */
  predicate Keeps(previous: seq<Row>, above: Entry, below: Entry) {
    var (a, b) := (Rank(previous, above.row), Rank(previous, below.row));
    Close(above, below) && a.Some? && b.Some? && b.value < a.value
  }

  function KeepsPlace(previous: seq<Row>): Passing {
    (above, below) => Keeps(previous, above, below)
  }

  function Sort(s: seq<Entry>): seq<Entry> {
    Inserted(Precedes, s)
  }

  function Settle(previous: seq<Row>, s: seq<Entry>): seq<Entry> {
    Inserted(KeepsPlace(previous), s)
  }

  // ---- the sort -----------------------------------------------------------------------------

  predicate NotAfter(a: Entry, b: Entry) {
    !Less(b, a)
  }

  lemma {:induction false} InsertUpSorts(s: seq<Entry>, x: Entry)
    requires Pairs(NotAfter, s)
    ensures Pairs(NotAfter, InsertUp(Precedes, s, x))
  {
    var n := |s|;
    if n > 0 {
      var (front, last) := (s[..n - 1], s[n - 1]);
      if Precedes(last, x) {
        InsertUpSorts(front, x);
        InsertUpHas(Precedes, front, x);
        var up := InsertUp(Precedes, front, x);
        forall i | 0 <= i < |up| ensures NotAfter(up[i], last) {
          assert up[i] in up;
          if up[i] != x {
            var k :| 0 <= k < |front| && front[k] == up[i];
            assert NotAfter(s[k], s[n - 1]);
          }
        }
      } else {
        forall i | 0 <= i < n ensures NotAfter(s[i], x) {
          assert i < n - 1 ==> NotAfter(s[i], s[n - 1]);
        }
      }
    }
  }

  /** The entries the order does not tell from e, as they stand. */
  function Ties(s: seq<Entry>, e: Entry): seq<Entry> {
    if s == [] then []
    else
      var n := |s| - 1;
      Ties(s[..n], e) + if NotAfter(s[n], e) && NotAfter(e, s[n]) then [s[n]] else []
  }

  lemma {:induction false} InsertUpTies(s: seq<Entry>, x: Entry, e: Entry)
    ensures Ties(InsertUp(Precedes, s, x), e) == Ties(s + [x], e)
  {
    var n := |s|;
    assert (s + [x])[..n] == s;
    if n > 0 && Precedes(s[n - 1], x) {
      var front := s[..n - 1];
      InsertUpTies(front, x, e);
      assert (front + [x])[..n - 1] == front;
      assert InsertUp(Precedes, s, x)[..n] == InsertUp(Precedes, front, x);
    }
  }

  /** The sort orders the entries and leaves those that tie in the order they had. */
  lemma {:induction false} SortSorts(s: seq<Entry>)
    ensures Pairs(NotAfter, Sort(s)) && multiset(Sort(s)) == multiset(s)
    ensures forall e :: Ties(Sort(s), e) == Ties(s, e)
  {
    InsertedPermutes(Precedes, s);
    if s != [] {
      var (front, last) := (s[..|s| - 1], s[|s| - 1]);
      SortSorts(front);
      InsertUpSorts(Sort(front), last);
      assert (Sort(front) + [last])[..|front|] == Sort(front);
      forall e ensures Ties(Sort(s), e) == Ties(s, e) { InsertUpTies(Sort(front), last, e); }
    }
  }

  // ---- what the ranking promises -----------------------------------------------------------------

  /** Either in order, or close and already that way round before. */
  predicate Justified(previous: seq<Row>, a: Entry, b: Entry) {
    NotAfter(a, b) || Keeps(previous, b, a)
  }

  function JustifiedBy(previous: seq<Row>): Relation {
    (a, b) => Justified(previous, a, b)
  }

  /** A row's player stood at that place of the rows shown before. */
  predicate StoodAt(previous: seq<Row>, row: Row, i: nat) {
    i < |previous| && previous[i].Player() == row.Player() && forall j :: 0 <= j < i ==> previous[j].Player() != row.Player()
  }

  /** Two racing rows less than the hysteresis apart, the first of which stood above before. */
  ghost predicate StoodAbove(previous: seq<Row>, a: Entry, b: Entry) {
    && a.row.Racing? && b.row.Racing? && a.key < b.key + RANK_HYSTERESIS && b.key < a.key + RANK_HYSTERESIS
    && exists i: nat, j: nat :: StoodAt(previous, a.row, i) && StoodAt(previous, b.row, j) && i < j
  }

  lemma RankIsPlace(previous: seq<Row>, row: Row, i: nat)
    ensures StoodAt(previous, row, i) <==> Rank(previous, row) == Some(i)
  {}

  lemma KeepsIsAbove(previous: seq<Row>, above: Entry, below: Entry)
    ensures Keeps(previous, above, below) <==> StoodAbove(previous, below, above)
  {
    forall i: nat ensures StoodAt(previous, below.row, i) <==> Rank(previous, below.row) == Some(i) { RankIsPlace(previous, below.row, i); }
    forall i: nat ensures StoodAt(previous, above.row, i) <==> Rank(previous, above.row) == Some(i) { RankIsPlace(previous, above.row, i); }
    hide Rank, StoodAt;
    if Keeps(previous, above, below) {
      assert StoodAt(previous, below.row, Rank(previous, below.row).value) && StoodAt(previous, above.row, Rank(previous, above.row).value);
    }
  }

  /** The rows after sorting and settling are the same entries; finished ones come before
      racing ones and in order of their times; and two racing rows out of progress order are
      closer than the hysteresis and stood in that order before. */
  lemma RankingIsJustified(previous: seq<Row>, s: seq<Entry>)
    ensures var t := Settle(previous, Sort(s));
      && multiset(t) == multiset(s)
      && (forall i, j :: 0 <= i < j < |t| ==> (t[i].row.Racing? ==> t[j].row.Racing?))
      && (forall i, j :: 0 <= i < j < |t| && t[j].key < t[i].key && t[i].row.Racing? == t[j].row.Racing? ==>
           StoodAbove(previous, t[i], t[j]))
  {
    var (sorted, t) := (Sort(s), Settle(previous, Sort(s)));
    InsertedPermutes(Precedes, s);
    InsertedPermutes(KeepsPlace(previous), sorted);
    SortSorts(s);
    var r := JustifiedBy(previous);
    assert Pairs(r, sorted) by {
      forall i, j | 0 <= i < j < |sorted| ensures r(sorted[i], sorted[j]) { assert NotAfter(sorted[i], sorted[j]); }
    }
    InsertedKeepsPairs(KeepsPlace(previous), r, sorted);
    forall i, j | 0 <= i < j < |t| ensures NotAfter(t[i], t[j]) || StoodAbove(previous, t[i], t[j]) {
      assert r(t[i], t[j]);
      KeepsIsAbove(previous, t[j], t[i]);
    }
    hide StoodAbove, Keeps;
  }

  /** No two neighbours are left that are closer than the hysteresis and stood the other way
      round before, so settling again against the same rows changes nothing. */
  lemma RankingIsStable(previous: seq<Row>, s: seq<Entry>)
    ensures var t := Settle(previous, Sort(s));
      && (forall i :: 0 < i < |t| ==> !StoodAbove(previous, t[i], t[i - 1])) && Settle(previous, t) == t
  {
    var t := Settle(previous, Sort(s));
    InsertedIsSettled(KeepsPlace(previous), Sort(s));
    SettledStays(KeepsPlace(previous), t);
    forall i | 0 < i < |t| ensures !StoodAbove(previous, t[i], t[i - 1]) { KeepsIsAbove(previous, t[i - 1], t[i]); }
  }

  // ---- the system -----------------------------------------------------------------------------

  function Rows(s: seq<Entry>): (rows: seq<Row>)
    ensures |rows| == |s| && forall i :: 0 <= i < |s| ==> rows[i] == s[i].row
  {
    seq(|s|, i requires 0 <= i < |s| => s[i].row)
  }

  class Board {
    var rows: seq<Row>
    var version: nat

    constructor ()
      ensures rows == [] && version == 0
    {
      rows, version := [], 0;
    }

    /** Ranks the entries of a race in progress and shows them; the version moves on
        exactly when the rows do. */
    method Publish(scratch: array<Entry>)
      modifies this, scratch
      ensures scratch[..] == Settle(old(rows), Sort(old(scratch[..])))
      ensures rows == Rows(scratch[..])
      ensures version == old(version) + if rows == old(rows) then 0 else 1
    {
      InsertInPlace(Precedes, scratch);
      InsertInPlace(KeepsPlace(rows), scratch);
      Show(scratch);
    }

    method Show(scratch: array<Entry>)
      modifies this
      ensures rows == Rows(scratch[..])
      ensures version == old(version) + if rows == old(rows) then 0 else 1
    {
      var same := scratch.Length == |rows|;
      var i := 0;
      while same && i < scratch.Length
        invariant i <= scratch.Length && (same ==> scratch.Length == |rows|)
        invariant same ==> forall k :: 0 <= k < i ==> scratch[k].row == rows[k]
        invariant !same ==> Rows(scratch[..]) != rows
        decreases scratch.Length - i, same
      {
        if scratch[i].row != rows[i] {
          assert Rows(scratch[..])[i] != rows[i];
          same := false;
        }
        i := i + 1;
      }
      if same {
        assert Rows(scratch[..]) == rows;
        return;
      }
      rows := Rows(scratch[..]);
      version := version + 1;
    }
  }
}
