/** Tag resolution of void-data/build.rs over a graph of tags that may be cyclic.

    What is resolved is a set; the list returned is that set in order. */
module Tags {
  type Tag = string
  type Item = string

  datatype Entry = Reference(tag: Tag) | Direct(item: Item)

  type Graph = map<Tag, seq<Entry>>

  // ---- the search ------------------------------------------------------------------

  /** What `resolve_tag` returns with the tags of `seen` on the stack. */
  function Resolve(graph: Graph, tag: Tag, seen: set<Tag>): set<Item>
    decreases |graph.Keys - seen|, 0, 0
  {
    if tag in seen || tag !in graph then {}
    else
      assert graph.Keys - (seen + {tag}) < graph.Keys - seen;
      Shrinks(graph.Keys - (seen + {tag}), graph.Keys - seen);
      ResolveAll(graph, graph[tag], seen + {tag})
  }

  function ResolveAll(graph: Graph, entries: seq<Entry>, seen: set<Tag>): set<Item>
    decreases |graph.Keys - seen|, 1, |entries|
  {
    if entries == [] then {}
    else
      var n := |entries| - 1;
      ResolveAll(graph, entries[..n], seen) + ResolveOne(graph, entries[n], seen)
  }

  function ResolveOne(graph: Graph, e: Entry, seen: set<Tag>): set<Item>
    decreases |graph.Keys - seen|, 1, 0
  {
    match e
    case Reference(t) => Resolve(graph, t, seen)
    case Direct(x) => {x}
  }

  lemma ResolveUnfolds(graph: Graph, tag: Tag, seen: set<Tag>)
    ensures Resolve(graph, tag, seen) ==
            if tag in seen || tag !in graph then {} else ResolveAll(graph, graph[tag], seen + {tag})
  {}

  lemma ResolveSnoc(graph: Graph, entries: seq<Entry>, i: nat, seen: set<Tag>)
    requires i < |entries|
    ensures ResolveAll(graph, entries[..i + 1], seen) ==
            ResolveAll(graph, entries[..i], seen) + (if entries[i].Reference? then Resolve(graph, entries[i].tag, seen) else {entries[i].item})
  {
    assert entries[..i + 1][..i] == entries[..i];
  }

  lemma Shrinks(a: set<Tag>, b: set<Tag>)
    requires a < b
    ensures |a| < |b|
  {
    var x :| x in b && x !in a;
    assert a <= b - {x};
    Subsets(a, b - {x});
  }

  lemma {:induction false} Subsets(a: set<Tag>, b: set<Tag>)
    requires a <= b
    ensures |a| <= |b|
  {
    if a != {} {
      var x :| x in a;
      Subsets(a - {x}, b - {x});
    }
  }

  // ---- ordered sets -----------------------------------------------------------------

  /** Strings in the order of their characters, which is that of their bytes in UTF-8. */
  predicate Before(a: Item, b: Item) {
    b != "" && (a == "" || a[0] < b[0] || (a[0] == b[0] && Before(a[1..], b[1..])))
  }

  lemma {:induction false} OneOrder(a: Item, b: Item)
    ensures !(Before(a, b) && Before(b, a)) && (a == b <==> !Before(a, b) && !Before(b, a))
  {
    if a != "" && b != "" && a[0] == b[0] {
      OneOrder(a[1..], b[1..]);
      assert a == [a[0]] + a[1..] && b == [b[0]] + b[1..];
    }
  }

  lemma {:induction false} BeforeChains(a: Item, b: Item, c: Item)
    requires Before(a, b) && Before(b, c)
    ensures Before(a, c)
  {
    if a != "" && a[0] == b[0] == c[0] {
      BeforeChains(a[1..], b[1..], c[1..]);
    }
  }

  function Elements(s: seq<Item>): set<Item> {
    set x | x in s
  }

  predicate Ascending(s: seq<Item>) {
    forall i, j :: 0 <= i < j < |s| ==> Before(s[i], s[j])
  }

  /** Insertion into an ordered set. */
  function Insert(s: seq<Item>, x: Item): seq<Item> {
    if s == [] then [x]
    else
      var n := |s| - 1;
      if s[n] == x then s
      else if Before(s[n], x) then s + [x]
      else Insert(s[..n], x) + [s[n]]
  }

  lemma {:induction false} InsertKeeps(s: seq<Item>, x: Item)
    requires Ascending(s)
    ensures Ascending(Insert(s, x)) && forall y :: y in Insert(s, x) <==> y in s || y == x
  {
    if s != [] {
      var (front, last) := (s[..|s| - 1], s[|s| - 1]);
      OneOrder(last, x);
      if Before(last, x) {
        forall i | 0 <= i < |front| ensures Before(s[i], x) { BeforeChains(s[i], last, x); }
      } else if last != x {
        InsertKeeps(front, x);
        var r := Insert(front, x);
        forall i | 0 <= i < |r| ensures Before(r[i], last) { assert r[i] in r; }
      }
      assert s == front + [last];
    }
  }

  lemma InsertAdds(s: seq<Item>, x: Item)
    requires Ascending(s)
    ensures Ascending(Insert(s, x)) && Elements(Insert(s, x)) == Elements(s) + {x}
  {
    InsertKeeps(s, x);
  }

  lemma NoElements(s: seq<Item>)
    ensures s == [] <==> Elements(s) == {}
  {
    if s != [] { assert s[0] in Elements(s); }
  }

  /** A set has one list in order: the one returned cannot depend on the way it was filled. */
  lemma {:induction false} OneList(a: seq<Item>, b: seq<Item>)
    requires Ascending(a) && Ascending(b) && Elements(a) == Elements(b)
    ensures a == b
  {
    NoElements(a);
    NoElements(b);
    if a != [] {
      assert forall x :: (x in a <==> x in Elements(a)) && (x in b <==> x in Elements(b));
      var (m, n) := (|a| - 1, |b| - 1);
      assert a[m] in b && b[n] in a;
      OneOrder(a[m], b[n]);
      assert a[m] == b[n];
      forall x ensures x in a[..m] <==> x in b[..n] {
        OneOrder(x, x);
        assert x in a <==> x in a[..m] || x == a[m];
        assert x in b <==> x in b[..n] || x == b[n];
      }
      OneList(a[..m], b[..n]);
      assert a == a[..m] + [a[m]] && b == b[..n] + [b[n]];
    }
  }

  method AddAll(into: seq<Item>, items: seq<Item>) returns (out: seq<Item>)
    requires Ascending(into)
    ensures Ascending(out) && Elements(out) == Elements(into) + Elements(items)
  {
    hide Ascending, Insert;
    out := into;
    assert items[..0] == [];
    for j := 0 to |items|
      invariant Ascending(out) && Elements(out) == Elements(into) + Elements(items[..j])
    {
      assert items[..j + 1] == items[..j] + [items[j]];
      assert Elements(items[..j + 1]) == Elements(items[..j]) + {items[j]};
      InsertAdds(out, items[j]);
      out := Insert(out, items[j]);
    }
    assert items[..|items|] == items;
  }

  /** The search as it runs, with one set of tags shared by the whole recursion. */
  class Resolver {
    const graph: Graph
    var seen: set<Tag>

    constructor (graph: Graph)
      ensures this.graph == graph && seen == {}
    {
      this.graph, seen := graph, {};
    }

    /** The list returned is in order, without duplicates, and holds what is resolved. */
    method Run(tag: Tag) returns (out: seq<Item>)
      modifies this
      ensures seen == old(seen) && Ascending(out) && Elements(out) == Resolve(graph, tag, old(seen))
      decreases |graph.Keys - seen|
    {
      if tag in seen {
        return [];
      }
      assert Elements([]) == {} && Ascending([]);
      hide Resolve, Insert, Elements, Ascending;
      ghost var before := seen;
      ResolveUnfolds(graph, tag, before);
      seen := seen + {tag};
      out := [];
      if tag in graph {
        Shrinks(graph.Keys - seen, graph.Keys - before);
        var entries := graph[tag];
        assert entries[..0] == [];
        for i := 0 to |entries|
          invariant seen == before + {tag} && Ascending(out) && Elements(out) == ResolveAll(graph, entries[..i], seen)
        {
          ResolveSnoc(graph, entries, i, seen);
          hide ResolveAll;
          match entries[i] {
            case Reference(t) =>
              var inner := Run(t);
              out := AddAll(out, inner);
            case Direct(x) =>
              InsertAdds(out, x);
              out := Insert(out, x);
          }
        }
        assert entries[..|entries|] == entries;
      }
      seen := seen - {tag};
      assert seen == before;
    }
  }

  // ---- reachability ------------------------------------------------------------------

  /** A chain of references from one tag to the next. */
  ghost predicate Chain(graph: Graph, path: seq<Tag>) {
    && path != []
    && (forall i :: 0 <= i < |path| ==> path[i] in graph)
    && (forall i :: 0 <= i < |path| - 1 ==> Reference(path[i + 1]) in graph[path[i]])
  }

  ghost predicate Leads(graph: Graph, tag: Tag, path: seq<Tag>, x: Item) {
    Chain(graph, path) && path[0] == tag && Direct(x) in graph[path[|path| - 1]]
  }

  ghost predicate Reaches(graph: Graph, tag: Tag, x: Item) {
    exists path :: Leads(graph, tag, path, x)
  }

  lemma {:induction false} Sound(graph: Graph, tag: Tag, seen: set<Tag>, x: Item)
    requires x in Resolve(graph, tag, seen)
    ensures Reaches(graph, tag, x)
    decreases |graph.Keys - seen|, 0, 0
  {
    Shrinks(graph.Keys - (seen + {tag}), graph.Keys - seen);
    hide Leads, Chain;
    var e := SoundAll(graph, graph[tag], seen + {tag}, x);
    if e.Reference? {
      Extended(graph, tag, e.tag, x);
    } else {
      OneTag(graph, tag, x);
    }
  }

  lemma OneTag(graph: Graph, tag: Tag, x: Item)
    requires tag in graph && Direct(x) in graph[tag]
    ensures Reaches(graph, tag, x)
  {
    assert Leads(graph, tag, [tag], x);
  }

  lemma Extended(graph: Graph, tag: Tag, t: Tag, x: Item)
    requires tag in graph && Reference(t) in graph[tag] && Reaches(graph, t, x)
    ensures Reaches(graph, tag, x)
  {
    var path :| Leads(graph, t, path, x);
    var longer := [tag] + path;
    assert forall i :: 0 < i < |longer| ==> longer[i] == path[i - 1];
    assert forall i :: 0 <= i < |longer| - 1 ==> longer[i + 1] == path[i];
    assert longer[|longer| - 1] == path[|path| - 1];
    assert Leads(graph, tag, longer, x);
  }

  /** The entry an item came through. */
  lemma {:induction false} SoundAll(graph: Graph, entries: seq<Entry>, seen: set<Tag>, x: Item) returns (e: Entry)
    requires x in ResolveAll(graph, entries, seen)
    ensures e in entries && (e == Direct(x) || (e.Reference? && Reaches(graph, e.tag, x)))
    decreases |graph.Keys - seen|, 1, |entries|
  {
    var n := |entries| - 1;
    if x in ResolveAll(graph, entries[..n], seen) {
      e := SoundAll(graph, entries[..n], seen, x);
    } else {
      e := entries[n];
      if e.Reference? {
        Sound(graph, e.tag, seen, x);
      }
    }
  }

  ghost predicate Simple(path: seq<Tag>) {
    forall i, j :: 0 <= i < j < |path| ==> path[i] != path[j]
  }

  lemma {:induction false} ResolveHasEntry(graph: Graph, entries: seq<Entry>, seen: set<Tag>, e: Entry, x: Item)
    requires e in entries && x in ResolveOne(graph, e, seen)
    ensures x in ResolveAll(graph, entries, seen)
  {
    var n := |entries| - 1;
    if e != entries[n] {
      assert e in entries[..n];
      ResolveHasEntry(graph, entries[..n], seen, e, x);
    }
  }

  /** The search follows every simple chain that avoids the tags seen. */
  lemma {:induction false} FollowsSimple(graph: Graph, path: seq<Tag>, seen: set<Tag>, x: Item)
    requires path != [] && Leads(graph, path[0], path, x) && Simple(path)
    requires forall i :: 0 <= i < |path| ==> path[i] !in seen
    ensures x in Resolve(graph, path[0], seen)
    decreases |path|
  {
    var tag := path[0];
    var e := if |path| == 1 then Direct(x) else Reference(path[1]);
    if |path| > 1 {
      var rest := path[1..];
      assert forall i :: 0 <= i < |rest| ==> rest[i] == path[i + 1];
      assert rest[|rest| - 1] == path[|path| - 1];
      FollowsSimple(graph, rest, seen + {tag}, x);
    }
    ResolveHasEntry(graph, graph[tag], seen + {tag}, e, x);
  }

  /** A chain with a repetition can be cut short. */
  lemma {:induction false} CutToSimple(graph: Graph, path: seq<Tag>, x: Item) returns (simple: seq<Tag>)
    requires path != [] && Leads(graph, path[0], path, x)
    ensures simple != [] && Leads(graph, path[0], simple, x) && Simple(simple)
    decreases |path|
  {
    if Simple(path) {
      return path;
    }
    var i, j :| 0 <= i < j < |path| && path[i] == path[j];
    var cut := path[..i] + path[j..];
    CutLeads(graph, path, i, j, x);
    simple := CutToSimple(graph, cut, x);
  }

  lemma CutLeads(graph: Graph, path: seq<Tag>, i: nat, j: nat, x: Item)
    requires path != [] && Leads(graph, path[0], path, x) && i < j < |path| && path[i] == path[j]
    ensures var cut := path[..i] + path[j..];
            |cut| < |path| && cut[0] == path[0] && Leads(graph, path[0], cut, x)
  {
    var cut := path[..i] + path[j..];
    forall k | 0 <= k < |cut| ensures cut[k] in graph {
      assert cut[k] == if k < i then path[k] else path[k + j - i];
    }
    forall k | 0 <= k < |cut| - 1 ensures Reference(cut[k + 1]) in graph[cut[k]] {
      if k + 1 < i {
        assert cut[k] == path[k] && cut[k + 1] == path[k + 1];
      } else if k + 1 == i {
        assert cut[k] == path[k] && cut[k + 1] == path[j] == path[i];
      } else {
        assert cut[k] == path[k + j - i] && cut[k + 1] == path[k + 1 + j - i];
      }
    }
    assert cut[|cut| - 1] == path[|path| - 1];
  }

  /** On every graph, cyclic ones too, the search started with nothing seen returns
      exactly the entries some chain of references leads to. */
  lemma ResolvesWhatIsReachable(graph: Graph, tag: Tag, x: Item)
    ensures x in Resolve(graph, tag, {}) <==> Reaches(graph, tag, x)
  {
    if x in Resolve(graph, tag, {}) {
      Sound(graph, tag, {}, x);
    }
    if Reaches(graph, tag, x) {
      var path :| Leads(graph, tag, path, x);
      var simple := CutToSimple(graph, path, x);
      FollowsSimple(graph, simple, {}, x);
    }
  }
}
