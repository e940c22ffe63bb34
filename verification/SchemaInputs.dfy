/** Decoding any bytes at all: what is consumed, what is charged, what comes out. */
module SchemaInputs {
  import opened Options
  import opened VarInt
  import opened Wire
  import opened Lengths
  import opened Schema
  import opened SchemaLaws

  // ---- the discipline on `remaining` --------------------------------------------------

  /** Declarations that may take all that is left. */
  predicate Opens(open: set<nat>, t: Type) {
    match t
    case Named(n) => n in open
    case Optional(elem) => Opens(open, elem)
    case _ => false
  }

  predicate WellNested(open: set<nat>, t: Type) {
    match t
    case Vector(elem, _) => !Opens(open, elem) && WellNested(open, elem)
    case Optional(elem) => WellNested(open, elem)
    case _ => true
  }

  predicate OpenField(open: set<nat>, f: Field) {
    f.Remaining? || (f.Plain? && Opens(open, f.ty))
  }

  predicate WellNestedField(open: set<nat>, f: Field) {
    match f
    case Plain(t) => WellNested(open, t)
    case FixedItems(_, _, elem, _) => !Opens(open, elem) && WellNested(open, elem)
    case _ => true
  }

  predicate DisciplinedDecl(open: set<nat>, n: nat, d: Decl) {
    match d
    case Struct(fields) => forall i :: 0 <= i < |fields| ==>
      WellNestedField(open, fields[i]) && (OpenField(open, fields[i]) ==> i == |fields| - 1 && n in open)
    case Tagged(variants) => forall k :: 0 <= k < |variants| ==>
      WellNested(open, variants[k].payload) && (Opens(open, variants[k].payload) ==> n in open)
    case Repr(_, _, _) => true
  }

  /** A `remaining` field only ever stands last, also through nested declarations. */
  ghost predicate Disciplined(c: Codec, open: set<nat>) {
    forall n: nat :: n < |c.decls| ==> DisciplinedDecl(open, n, c.decls[n])
  }

  lemma {:induction false} RemainingIsLast(c: Codec, open: set<nat>, t: Type, v: Value)
    requires Disciplined(c, open) && WellNested(open, t)
    ensures (Greedy(c, t, v) ==> Opens(open, t)) && Tail(c, t, v)
    decreases v, 1
  {
    match (t, v)
    case (Vector(elem, _), Items(items)) => ItemsAreLast(c, open, elem, v, 0);
    case (Optional(elem), Present(inner)) => RemainingIsLast(c, open, elem, inner);
    case (Named(n), _) => {
      assert n < |c.decls| ==> DisciplinedDecl(open, n, c.decls[n]);
      match (c.Decl(n), v)
      case (Struct(fields), Record(values)) => FieldsAreLast(c, open, n, fields, v, 0);
      case (Tagged(variants), Case(k, payload)) =>
        if k < |variants| { RemainingIsLast(c, open, variants[k].payload, payload); }
      case _ =>
    }
    case _ =>
  }

  lemma {:induction false} ItemsAreLast(c: Codec, open: set<nat>, t: Type, v: Value, i: nat)
    requires Disciplined(c, open) && !Opens(open, t) && WellNested(open, t) && v.Items? && i <= |v.items|
    ensures !GreedyItems(c, t, v, i) && TailItems(c, t, v, i)
    decreases v, 0, |v.items| - i
  {
    if i < |v.items| {
      RemainingIsLast(c, open, t, v.items[i]);
      ItemsAreLast(c, open, t, v, i + 1);
    }
  }

  lemma {:induction false} FieldsAreLast(c: Codec, open: set<nat>, n: nat, fields: seq<Field>, v: Value, i: nat)
    requires Disciplined(c, open) && DisciplinedDecl(open, n, Struct(fields)) && v.Record?
    ensures (GreedyFields(c, fields, v, i) ==> n in open) && TailFields(c, fields, v, i)
    decreases v, 0, |fields| - i
  {
    if i < |fields| && i < |v.fields| {
      FieldsAreLast(c, open, n, fields, v, i + 1);
      assert WellNestedField(open, fields[i]) && (OpenField(open, fields[i]) ==> i == |fields| - 1 && n in open);
      FieldIsLast(c, open, fields[i], v.fields[i]);
    }
  }

  lemma {:induction false} FieldIsLast(c: Codec, open: set<nat>, f: Field, v: Value)
    requires Disciplined(c, open) && WellNestedField(open, f)
    ensures (GreedyField(c, f, v) ==> OpenField(open, f)) && TailField(c, f, v)
    decreases v, 2
  {
    match f
    case Plain(t) => RemainingIsLast(c, open, t, v);
    case FixedItems(_, _, elem, _) =>
      if v.Items? { ItemsAreLast(c, open, elem, v, 0); }
    case _ =>
  }

  /** The round trip, for every codec whose declarations keep the discipline: any type
      that cannot take all that is left is decoded out of any longer input, the others
      when they come last. */
  lemma DisciplinedRoundTrip(c: Codec, open: set<nat>, t: Type, v: Value, more: bytes)
    requires Sound(c) && Disciplined(c, open) && WellNested(open, t) && Typed(Reads, c, t, v)
    requires Opens(open, t) ==> more == []
    ensures var r := Call(c, t, Input(Encode(c, t, v) + more, 0, 0, 0));
            if Fits(c, Down(Cost(c, t, v)), Input([], 0, 0, 0))
            then r.Ok? && r.value == v && r.next.rest == more && r.next.depth == 0
            else r.Err?
  {
    RemainingIsLast(c, open, t, v);
    SchemaLaws.RoundTrip(c, t, v, more);
  }

  // ---- any input -------------------------------------------------------------------------

  ghost predicate Suffix(a: bytes, b: bytes) {
    |a| <= |b| && b[|b| - |a|..] == a
  }

  lemma SuffixChain(a: bytes, b: bytes, c: bytes)
    requires Suffix(a, b) && Suffix(b, c)
    ensures Suffix(a, c)
  {}

  /** The input only ever gets shorter at the front and the totals only grow; the depth
      comes back whatever happens. */
  ghost predicate Advances(s: Input, t: Input) {
    Suffix(t.rest, s.rest) && s.elements <= t.elements && s.heap <= t.heap && t.depth == s.depth
  }

  /** From one state to the other exactly the bill was charged, which the limits allowed. */
  ghost predicate Charged(c: Codec, s: Input, next: Input, b: Bill) {
    Fits(c, b, s) && next == After(s, b, next.rest)
  }

  lemma AdvanceChain(a: Input, b: Input, c: Input)
    requires Advances(a, b) && Advances(b, c)
    ensures Advances(a, c)
  {
    SuffixChain(c.rest, b.rest, a.rest);
  }

  lemma TakeAdvances(s: Input, n: nat)
    ensures Advances(s, Take(s, n).next)
  {}

  lemma TakeIntAdvances(t: IntType, s: Input)
    ensures Advances(s, TakeInt(t, s).next) && (TakeInt(t, s).Ok? ==> t.InRange(TakeInt(t, s).value))
  {}

  lemma TakeVarAdvances(w: Width, s: Input)
    ensures Advances(s, TakeVar(w, s).next) && (TakeVar(w, s).Ok? ==> w.Signed(TakeVar(w, s).value))
    ensures TakeVar(w, s).next == s.(rest := TakeVar(w, s).next.rest)
  {
    hide ReadVar, Width.Modulus;
    VarFits(w, s.rest);
  }

  lemma TakeDiscAdvances(repr: IntType, form: DiscForm, s: Input)
    ensures Advances(s, TakeDisc(repr, form, s).next)
    ensures TakeDisc(repr, form, s).next == s.(rest := TakeDisc(repr, form, s).next.rest)
  {
    match form
    case AsRepr => TakeIntAdvances(repr, s);
    case AsVarint(w) => TakeVarAdvances(w, s);
  }

  ghost predicate Accounted(c: Codec, t: Type, s: Input, r: Outcome<Value>) {
    Advances(s, r.next) && (r.Ok? ==> Typed(Reads, c, t, r.value) && Charged(c, s, r.next, Cost(c, t, r.value)))
  }

  lemma TextAccount(c: Codec, s: Input)
    requires Bounded(c, s)
    ensures var r := WithText(c, s);
            && Advances(s, r.next)
            && (r.Ok? ==> r.value.Data? && |r.value.data| <= I32_MAX && c.utf8(r.value.data)
                          && Charged(c, s, r.next, Bill(0, |r.value.data|, 1, |r.value.data| <= c.limits.stringBytes)))
  {
    TakeVarAdvances(W32, s);
    hide TakeVar;
  }

  lemma BytesAccount(c: Codec, len: nat, s: Input)
    requires Bounded(c, s)
    ensures var r := ExactBytes(c, len, s);
            && Advances(s, r.next)
            && (r.Ok? ==> r.value.Data? && |r.value.data| == len
                          && Charged(c, s, r.next, Bill(len, len, 0, len <= c.limits.collection)))
  {
    var s2 := s.(elements := s.elements + len, heap := s.heap + len);
    TakeAdvances(s2, len);
    hide Suffix;
    SuffixSelf(s.rest);
  }

  lemma SuffixSelf(a: bytes)
    ensures Suffix(a, a)
  {}

  /** A step one level down behind a prefix that is not charged. */
  lemma Composed(c: Codec, s: Input, mid: Input, next: Input, b: Bill)
    requires Bounded(c, s) && s.depth < c.limits.depth && mid == s.(rest := mid.rest)
    requires Charged(c, mid, next, b)
    ensures Charged(c, s, next, Plus(OneDown, b))
  {}

  lemma {:induction false} CallAccount(c: Codec, t: Type, s: Input)
    requires Bounded(c, s)
    ensures Advances(s, Call(c, t, s).next)
    ensures var r := Call(c, t, s); r.Ok? ==> Typed(Reads, c, t, r.value) && Charged(c, s, r.next, Down(Cost(c, t, r.value)))
    decreases c.limits.depth - s.depth, 0
  {
    hide With, Cost, Typed;
    if s.depth < c.limits.depth {
      WithAccount(c, t, s.(depth := s.depth + 1));
    }
  }

  lemma {:induction false} WithAccount(c: Codec, t: Type, s: Input)
    requires Bounded(c, s)
    ensures Accounted(c, t, s, With(c, t, s))
    decreases c.limits.depth - s.depth, 5
  {
    hide With, Accounted;
    match t
    case Vector(elem, size) => VectorAccount(c, elem, size, s);
    case Optional(elem) => OptionalAccount(c, elem, s);
    case Named(n) => {
      match c.Decl(n)
      case Struct(fields) => StructAccount(c, n, fields, s);
      case Tagged(variants) => TaggedAccount(c, n, variants, s);
      case Repr(repr, form, discs) => ReprAccount(c, n, repr, form, discs, s);
    }
    case _ => LeafAccount(c, t, s);
  }

  lemma LeafAccount(c: Codec, t: Type, s: Input)
    requires Bounded(c, s) && IsLeaf(t)
    ensures Accounted(c, t, s, With(c, t, s))
  {
    match t
    case Integer(i) => TakeIntAdvances(i, s);
    case Boolean => TakeAdvances(s, 1);
    case Var(w) => TakeVarAdvances(w, s);
    case Fixed(n) => TakeAdvances(s, n);
    case Text =>
      TextAccount(c, s);
      hide WithText;
  }

  lemma ReprAccount(c: Codec, n: nat, repr: IntType, form: DiscForm, discs: seq<int>, s: Input)
    requires Bounded(c, s) && c.Decl(n) == Repr(repr, form, discs)
    ensures Accounted(c, Named(n), s, With(c, Named(n), s))
  {
    TakeDiscAdvances(repr, form, s);
    hide TakeDisc, Suffix;
    SuffixSelf(s.rest);
  }

  lemma {:induction false} OptionalAccount(c: Codec, elem: Type, s: Input)
    requires Bounded(c, s)
    ensures Accounted(c, Optional(elem), s, With(c, Optional(elem), s))
    decreases c.limits.depth - s.depth, 4
  {
    var taken := Take(s, 1);
    TakeAdvances(s, 1);
    if s.depth < c.limits.depth && taken.Ok? && taken.value[0] != 0 {
      hide Call, Suffix, Cost, Typed, With;
      CallAccount(c, elem, taken.next);
      var inner := Call(c, elem, taken.next);
      AdvanceChain(s, taken.next, inner.next);
      if inner.Ok? {
        Composed(c, s, taken.next, inner.next, Down(Cost(c, elem, inner.value)));
        PresentCost(c, elem, inner.value);
        PresentTyped(c, elem, inner.value);
      }
      WithOptional(c, elem, s);
    } else {
      OptionalElse(c, elem, s);
    }
  }

  lemma PresentCost(c: Codec, elem: Type, v: Value)
    ensures Cost(c, Optional(elem), Present(v)) == Plus(OneDown, Down(Cost(c, elem, v)))
  {
    hide CountedCost, FieldsCost, Plus, Down, Codec.Decl;
  }

  lemma PresentTyped(c: Codec, elem: Type, v: Value)
    ensures Typed(Reads, c, Optional(elem), Present(v)) <==> Typed(Reads, c, elem, v)
  {
    hide TypedItems, TypedFields, Codec.Decl, IntType.InRange, Width.Signed;
  }

  lemma WithOptional(c: Codec, elem: Type, s: Input)
    requires Bounded(c, s) && s.depth < c.limits.depth && Take(s, 1).Ok? && Take(s, 1).value[0] != 0
    ensures var (r, inner) := (With(c, Optional(elem), s), Call(c, elem, Take(s, 1).next));
            if inner.Ok? then r == Ok(Present(inner.value), inner.next) else r == Err(inner.error, inner.next)
  {
    hide Call;
  }

  lemma OptionalElse(c: Codec, elem: Type, s: Input)
    requires Bounded(c, s) && !(s.depth < c.limits.depth && s.rest != [] && s.rest[0] != 0)
    ensures Accounted(c, Optional(elem), s, With(c, Optional(elem), s))
  {
    hide With, Typed, Cost, Charged, Advances, Take;
    WithAbsent(c, elem, s);
    AbsentAccount(c, elem, s);
    NothingTaken(c, s);
  }

  lemma NothingTaken(c: Codec, s: Input)
    requires Bounded(c, s)
    ensures Advances(s, s)
    ensures s.depth < c.limits.depth && s.rest != [] ==>
      Advances(s, s.(rest := s.rest[1..])) && Charged(c, s, s.(rest := s.rest[1..]), OneDown)
  {}

  lemma WithAbsent(c: Codec, elem: Type, s: Input)
    requires Bounded(c, s) && !(s.depth < c.limits.depth && s.rest != [] && s.rest[0] != 0)
    ensures var r := With(c, Optional(elem), s);
            if s.depth < c.limits.depth && s.rest != [] then r == Ok(Absent, s.(rest := s.rest[1..])) && Take(s, 1).next == r.next
            else r.Err? && r.next == s
  {
    hide Call;
  }

  lemma AbsentAccount(c: Codec, elem: Type, s: Input)
    ensures Typed(Reads, c, Optional(elem), Absent) && Cost(c, Optional(elem), Absent) == OneDown
  {}

  lemma {:induction false} TaggedAccount(c: Codec, n: nat, variants: seq<Variant>, s: Input)
    requires Bounded(c, s) && c.Decl(n) == Tagged(variants)
    ensures Accounted(c, Named(n), s, With(c, Named(n), s))
    decreases c.limits.depth - s.depth, 4
  {
    TakeVarAdvances(W32, s);
    SuffixSelf(s.rest);
    var id := TakeVar(W32, s);
    hide TakeVar, FindVariant, Suffix, With;
    WithTagged(c, n, variants, s);
    if s.depth < c.limits.depth && id.Ok? && FindVariant(variants, id.value).Some? {
      var k := FindVariant(variants, id.value).value;
      hide Call, Cost, Typed;
      CallAccount(c, variants[k].payload, id.next);
      var inner := Call(c, variants[k].payload, id.next);
      AdvanceChain(s, id.next, inner.next);
      if inner.Ok? {
        Composed(c, s, id.next, inner.next, Down(Cost(c, variants[k].payload, inner.value)));
        CaseUnfolds(c, n, variants, k, inner.value);
      }
    }
  }

  lemma CaseUnfolds(c: Codec, n: nat, variants: seq<Variant>, k: nat, v: Value)
    requires c.Decl(n) == Tagged(variants) && k < |variants|
    ensures Cost(c, Named(n), Case(k, v)) == Plus(OneDown, Down(Cost(c, variants[k].payload, v)))
    ensures Typed(Reads, c, Named(n), Case(k, v)) <==> Typed(Reads, c, variants[k].payload, v)
  {
    hide CountedCost, FieldsCost, TypedItems, TypedFields, Codec.Decl;
  }

  lemma WithTagged(c: Codec, n: nat, variants: seq<Variant>, s: Input)
    requires Bounded(c, s) && c.Decl(n) == Tagged(variants)
    requires var id := TakeVar(W32, s); Bounded(c, id.next) && id.next.depth == s.depth
    ensures var (r, id) := (With(c, Named(n), s), TakeVar(W32, s));
            if s.depth >= c.limits.depth then r.Err? && r.next == s
            else if id.Err? || FindVariant(variants, id.value).None? then r.Err? && r.next == id.next
            else var k := FindVariant(variants, id.value).value;
                 var inner := Call(c, variants[k].payload, id.next);
                 if inner.Ok? then r == Ok(Case(k, inner.value), inner.next) else r == Err(inner.error, inner.next)
  {
    hide Call, TakeVar, FindVariant;
  }

  lemma {:induction false} StructAccount(c: Codec, n: nat, fields: seq<Field>, s: Input)
    requires Bounded(c, s) && c.Decl(n) == Struct(fields)
    ensures Accounted(c, Named(n), s, With(c, Named(n), s))
    decreases c.limits.depth - s.depth, 4, |fields| + 1
  {
    hide Fields, FieldsCost, Advances;
    FieldsAccount(c, fields, [], s);
    var r := Fields(c, fields, [], s);
    assert r.Ok? ==> TypedFields(Reads, c, fields, Record(r.value));
  }

  lemma {:induction false} VectorAccount(c: Codec, elem: Type, size: nat, s: Input)
    requires Bounded(c, s)
    ensures Accounted(c, Vector(elem, size), s, With(c, Vector(elem, size), s))
    decreases c.limits.depth - s.depth, 4
  {
    TakeVarAdvances(W32, s);
    SuffixSelf(s.rest);
    var raw := TakeVar(W32, s);
    hide TakeVar, Suffix, With;
    WithVector(c, elem, size, s);
    if s.depth < c.limits.depth && raw.Ok? && 0 <= raw.value <= c.limits.collection {
      hide Counted, Cost, Typed, CountedCost, TypedItems;
      CountedAccount(c, elem, raw.value, size, raw.next);
      var inner := Counted(c, elem, raw.value, size, raw.next);
      AdvanceChain(s, raw.next, inner.next);
      if inner.Ok? {
        Composed(c, s, raw.next, inner.next, CountedCost(c, elem, size, inner.value));
        VectorUnfolds(c, elem, size, inner.value);
      }
    }
  }

  lemma VectorUnfolds(c: Codec, elem: Type, size: nat, v: Value)
    requires v.Items?
    ensures Cost(c, Vector(elem, size), v) == Plus(OneDown, CountedCost(c, elem, size, v))
    ensures Typed(Reads, c, Vector(elem, size), v) <==> |v.items| <= I32_MAX && TypedItems(Reads, c, elem, v)
  {
    hide CountedCost, TypedItems;
  }

  lemma WithVector(c: Codec, elem: Type, size: nat, s: Input)
    requires Bounded(c, s)
    requires var raw := TakeVar(W32, s); Bounded(c, raw.next) && raw.next.depth == s.depth
    ensures var (r, raw) := (With(c, Vector(elem, size), s), TakeVar(W32, s));
            if s.depth >= c.limits.depth then r.Err? && r.next == s
            else if raw.Err? || !(0 <= raw.value <= c.limits.collection) then r.Err? && r.next == raw.next
            else r == Counted(c, elem, raw.value, size, raw.next)
  {
    hide Counted, TakeVar;
  }

  lemma {:induction false} CountedAccount(c: Codec, elem: Type, len: nat, size: nat, s: Input)
    requires Bounded(c, s)
    ensures var r := Counted(c, elem, len, size, s);
            && Advances(s, r.next)
            && (r.Ok? ==> r.value.Items? && |r.value.items| == len && TypedItems(Reads, c, elem, r.value)
                          && Charged(c, s, r.next, CountedCost(c, elem, size, r.value)))
    decreases c.limits.depth - s.depth, 2
  {
    hide List, ItemsCost, TypedItems, Counted;
    var charged := s.(elements := s.elements + len, heap := s.heap + len * size);
    if Bounded(c, charged) {
      ListAccount(c, elem, len, charged);
    }
    CountedCases(c, elem, len, size, s, len * size);
  }

  lemma CountedCases(c: Codec, elem: Type, len: nat, size: nat, s: Input, total: nat)
    requires Bounded(c, s) && total == len * size
    requires var charged := s.(elements := s.elements + len, heap := s.heap + total);
             Bounded(c, charged) ==>
               var r := List(c, elem, len, charged);
               && Advances(charged, r.next)
               && (r.Ok? ==> |r.value| == len && TypedItems(Reads, c, elem, Items(r.value))
                             && Charged(c, charged, r.next, ItemsCost(c, elem, Items(r.value), 0)))
    ensures var r := Counted(c, elem, len, size, s);
            && Advances(s, r.next)
            && (r.Ok? ==> r.value.Items? && |r.value.items| == len && TypedItems(Reads, c, elem, r.value)
                          && Charged(c, s, r.next, CountedCost(c, elem, size, r.value)))
  {
    hide List, ItemsCost, TypedItems, Suffix;
    SuffixSelf(s.rest);
  }

  lemma {:induction false} ListAccount(c: Codec, t: Type, n: nat, s: Input)
    requires Bounded(c, s)
    ensures var r := List(c, t, n, s);
            && Advances(s, r.next)
            && (r.Ok? ==> |r.value| == n && TypedItems(Reads, c, t, Items(r.value)) && Charged(c, s, r.next, ItemsCost(c, t, Items(r.value), 0)))
    decreases c.limits.depth - s.depth, 1, n
  {
    hide Call, Cost, Typed, Suffix, ItemsCost, TypedItems;
    if n == 0 {
      NoItemsAccount(c, t, s);
    } else {
      CallAccount(c, t, s);
      var head := Call(c, t, s);
      if head.Ok? {
        ListAccount(c, t, n - 1, head.next);
        var tail := List(c, t, n - 1, head.next);
        AdvanceChain(s, head.next, tail.next);
        if tail.Ok? {
          ConsItems(c, t, head.value, tail.value);
        }
      }
    }
  }

  lemma NoItemsAccount(c: Codec, t: Type, s: Input)
    requires Bounded(c, s)
    ensures Advances(s, s) && TypedItems(Reads, c, t, Items([])) && Charged(c, s, s, ItemsCost(c, t, Items([]), 0))
  {
    assert Items([]).items == [];
  }

  /** The cost of a list does not depend on what stands before it. */
  lemma ConsItems(c: Codec, t: Type, v: Value, tail: seq<Value>)
    ensures ItemsCost(c, t, Items([v] + tail), 0) == Plus(Down(Cost(c, t, v)), ItemsCost(c, t, Items(tail), 0))
    ensures TypedItems(Reads, c, t, Items([v] + tail)) <==> Typed(Reads, c, t, v) && TypedItems(Reads, c, t, Items(tail))
  {
    var all := [v] + tail;
    ShiftItems(c, t, Items(all), Items(tail), 0);
    assert Items(all).items[0] == v;
    if Typed(Reads, c, t, v) && TypedItems(Reads, c, t, Items(tail)) {
      forall i | 0 <= i < |all| ensures Typed(Reads, c, t, all[i]) {
        if i > 0 { assert all[i] == tail[i - 1]; }
      }
    }
    if TypedItems(Reads, c, t, Items(all)) {
      forall i | 0 <= i < |tail| ensures Typed(Reads, c, t, tail[i]) { assert tail[i] == all[i + 1]; }
    }
  }

  lemma {:induction false} ShiftItems(c: Codec, t: Type, all: Value, tail: Value, i: nat)
    requires all.Items? && tail.Items? && |all.items| == |tail.items| + 1 && all.items[1..] == tail.items && i <= |tail.items|
    ensures ItemsCost(c, t, all, i + 1) == ItemsCost(c, t, tail, i)
    decreases |tail.items| - i
  {
    if i < |tail.items| {
      assert all.items[i + 1] == tail.items[i];
      ShiftItems(c, t, all, tail, i + 1);
    }
  }

  lemma {:induction false} FieldsAccount(c: Codec, fields: seq<Field>, done: seq<Value>, s: Input)
    requires Bounded(c, s) && |done| <= |fields|
    ensures var r := Fields(c, fields, done, s);
            && Advances(s, r.next)
            && (r.Ok? ==> |r.value| == |fields| && done <= r.value
                          && (forall i :: |done| <= i < |fields| ==> TypedField(Reads, c, fields[i], r.value[..i], r.value[i]))
                          && Charged(c, s, r.next, FieldsCost(c, fields, Record(r.value), |done|)))
    decreases c.limits.depth - s.depth, 4, |fields| - |done|
  {
    hide OneField, FieldCost, TypedField, Suffix;
    SuffixSelf(s.rest);
    if |done| < |fields| {
      FieldAccount(c, fields[|done|], done, s);
      var head := OneField(c, fields[|done|], done, s);
      if head.Ok? {
        FieldsAccount(c, fields, done + [head.value], head.next);
        var r := Fields(c, fields, done + [head.value], head.next);
        AdvanceChain(s, head.next, r.next);
        if r.Ok? {
          assert r.value[..|done|] == done && r.value[|done|] == head.value;
        }
      }
    }
  }

  lemma {:induction false} FieldAccount(c: Codec, f: Field, done: seq<Value>, s: Input)
    requires Bounded(c, s)
    ensures var r := OneField(c, f, done, s);
            && Advances(s, r.next)
            && (r.Ok? ==> TypedField(Reads, c, f, done, r.value) && Charged(c, s, r.next, FieldCost(c, f, r.value)))
    decreases c.limits.depth - s.depth, 3
  {
    hide Call, Counted, ExactBytes, AllTheRest, Checked, Cost, CountedCost, Typed, TypedItems, Suffix, After, Fits;
    SuffixSelf(s.rest);
    match f
    case Plain(t) => CallAccount(c, t, s);
    case FixedBytes(e, _) =>
      if Checked(e, Numbers(done)).Some? { BytesAccount(c, Checked(e, Numbers(done)).value, s); }
    case FixedItems(e, _, elem, size) =>
      if Checked(e, Numbers(done)).Some? { CountedAccount(c, elem, Checked(e, Numbers(done)).value, size, s); }
    case Remaining => RestAccount(c, s);
  }

  lemma RestAccount(c: Codec, s: Input)
    requires Bounded(c, s)
    ensures var r := AllTheRest(c, s);
            && Advances(s, r.next)
            && (r.Ok? ==> r.value.Data? && Charged(c, s, r.next, Bill(0, |r.value.data|, 0, |r.value.data| <= c.limits.remaining)))
  {}

  // ---- repr enums -------------------------------------------------------------------------

  /** A discriminant survives unless it is wider than the varint it is written as. */
  lemma SurvivesExactly(repr: IntType, form: DiscForm, disc: int)
    requires repr.InRange(disc)
    ensures Survives(repr, form, disc) <==>
      || form.AsRepr? || form.w.W64? || repr.Bytes() <= 4
      || (if repr.I64? then I32.InRange(disc) else disc <= I32_MAX || disc >= repr.Modulus() - 0x8000_0000)
  {
    match form
    case AsRepr => WrapInRange(repr, disc);
    case AsVarint(W32) => SurvivesNarrow(repr, disc);
    case AsVarint(W64) => SurvivesWide(repr, disc);
  }

  lemma SurvivesWide(repr: IntType, disc: int)
    requires repr.InRange(disc)
    ensures repr.Wrap(I64.Wrap(disc)) == disc
  {
    if !repr.U64? {
      WrapInRange(I64, disc);
      WrapInRange(repr, disc);
    }
  }

  lemma SurvivesNarrow(repr: IntType, disc: int)
    requires repr.InRange(disc)
    ensures repr.Wrap(I32.Wrap(disc)) == disc <==>
      || repr.Bytes() <= 4
      || (if repr.I64? then I32.InRange(disc) else disc <= I32_MAX || disc >= repr.Modulus() - 0x8000_0000)
  {
    match repr
    case U32 => NarrowU32(disc);
    case I64 => NarrowI64(disc);
    case U64 => NarrowU64(disc);
    case _ =>
      WrapInRange(I32, disc);
      WrapInRange(repr, disc);
  }

  lemma NarrowU32(disc: int)
    requires U32.InRange(disc)
    ensures U32.Wrap(I32.Wrap(disc)) == disc
  {}

  lemma NarrowI64(disc: int)
    requires I64.InRange(disc)
    ensures I64.Wrap(I32.Wrap(disc)) == disc <==> I32.InRange(disc)
  {
    var x := I32.Wrap(disc);
    assert I64.InRange(x);
    WrapInRange(I64, x);
    if I32.InRange(disc) { WrapInRange(I32, disc); }
    hide IntType.Wrap;
  }

  lemma NarrowU64(disc: int)
    requires U64.InRange(disc)
    ensures U64.Wrap(I32.Wrap(disc)) == disc <==> disc <= I32_MAX || disc >= U64.Modulus() - 0x8000_0000
  {
    var x := I32.Wrap(disc);
    if x >= 0 { WrapInRange(U64, x); } else { assert U64.Wrap(x) == x + U64.Modulus(); }
    if disc <= I32_MAX { WrapInRange(I32, disc); }
    if disc >= U64.Modulus() - 0x8000_0000 { HighDisc(disc); }
  }

  lemma HighDisc(disc: int)
    requires U64.Modulus() - 0x8000_0000 <= disc < U64.Modulus()
    ensures I32.Wrap(disc) == disc - U64.Modulus()
  {}

  /** A variant of a repr enum is read back as itself exactly when its discriminant
      survives the casts. */
  lemma ReprIsReadBack(c: Codec, n: nat, repr: IntType, form: DiscForm, discs: seq<int>, k: nat, s: Input, more: bytes)
    requires Bounded(c, s) && s.depth < c.limits.depth && c.Decl(n) == Repr(repr, form, discs) && k < |discs|
    requires forall j :: 0 <= j < |discs| ==> repr.InRange(discs[j])
    requires forall i, j :: 0 <= i < j < |discs| ==> discs[i] != discs[j]
    requires s.rest == EncodeDisc(repr, form, discs[k]) + more
    ensures With(c, Named(n), s) == Ok(Unit(k), s.(rest := more)) <==> Survives(repr, form, discs[k])
  {
    DiscIsCast(repr, form, discs[k], s, more);
    var d := repr.Wrap(DiscOf(repr, form, discs[k]));
    if d == discs[k] {
      assert FindDisc(discs, d) == Some(k);
    }
    hide TakeDisc, FindDisc;
  }

  lemma DiscIsCast(repr: IntType, form: DiscForm, disc: int, s: Input, more: bytes)
    requires repr.InRange(disc) && s.rest == EncodeDisc(repr, form, disc) + more
    ensures TakeDisc(repr, form, s) == Ok(repr.Wrap(DiscOf(repr, form, disc)), s.(rest := more))
  {
    match form
    case AsRepr =>
      TakeIntEncoded(repr, disc, s, more);
      WrapInRange(repr, disc);
    case AsVarint(W32) => TakeVarEncoded(W32, I32.Wrap(disc), s, more);
    case AsVarint(W64) => TakeVarEncoded(W64, I64.Wrap(disc), s, more);
  }
}
