/** One round trip for every derived packet, and what holds of decoding any bytes. */
module SchemaLaws {
  import opened Options
  import opened VarInt
  import opened Wire
  import opened Schema

  // ---- which codecs are sound --------------------------------------------------------

  /** Identifiers are distinct, and discriminants survive the casts of their form. */
  ghost predicate Sound(c: Codec) {
    forall n: nat :: n < |c.decls| ==> SoundDecl(c.decls[n])
  }

  ghost predicate SoundDecl(d: Decl) {
    match d
    case Struct(_) => true
    case Tagged(variants) =>
      forall j, k :: 0 <= j < k < |variants| ==> variants[j].id != variants[k].id
    case Repr(repr, form, discs) =>
      && (forall k :: 0 <= k < |discs| ==> repr.InRange(discs[k]) && Survives(repr, form, discs[k]))
      && (forall j, k :: 0 <= j < k < |discs| ==> discs[j] != discs[k])
  }

  predicate Survives(repr: IntType, form: DiscForm, disc: int) {
    repr.Wrap(DiscOf(repr, form, disc)) == disc
  }

  // ---- values with a `remaining` field ------------------------------------------------

  /** Somewhere in the value a field takes all that is left. */
  ghost predicate Greedy(c: Codec, t: Type, v: Value)
    decreases v, 1
  {
    match (t, v)
    case (Vector(elem, _), Items(items)) => GreedyItems(c, elem, v, 0)
    case (Optional(elem), Present(inner)) => Greedy(c, elem, inner)
    case (Named(n), _) =>
      (match (c.Decl(n), v)
       case (Struct(fields), Record(values)) => GreedyFields(c, fields, v, 0)
       case (Tagged(variants), Case(k, payload)) => k < |variants| && Greedy(c, variants[k].payload, payload)
       case _ => false)
    case _ => false
  }

  ghost predicate GreedyItems(c: Codec, t: Type, v: Value, i: nat)
    requires v.Items? && i <= |v.items|
    decreases v, 0, |v.items| - i
  {
    i < |v.items| && (Greedy(c, t, v.items[i]) || GreedyItems(c, t, v, i + 1))
  }

  ghost predicate GreedyFields(c: Codec, fields: seq<Field>, v: Value, i: nat)
    requires v.Record?
    decreases v, 0, |fields| - i
  {
    i < |fields| && i < |v.fields| && (GreedyField(c, fields[i], v.fields[i]) || GreedyFields(c, fields, v, i + 1))
  }

  ghost predicate GreedyField(c: Codec, f: Field, v: Value)
    decreases v, 2
  {
    match (f, v)
    case (Plain(t), _) => Greedy(c, t, v)
    case (FixedItems(_, _, elem, _), Items(items)) => GreedyItems(c, elem, v, 0)
    case (Remaining, _) => true
    case _ => false
  }

  /** Nothing is written behind a `remaining` field. */
  ghost predicate Tail(c: Codec, t: Type, v: Value)
    decreases v, 1
  {
    match (t, v)
    case (Vector(elem, _), Items(items)) => TailItems(c, elem, v, 0)
    case (Optional(elem), Present(inner)) => Tail(c, elem, inner)
    case (Named(n), _) =>
      (match (c.Decl(n), v)
       case (Struct(fields), Record(values)) => TailFields(c, fields, v, 0)
       case (Tagged(variants), Case(k, payload)) => k < |variants| ==> Tail(c, variants[k].payload, payload)
       case _ => true)
    case _ => true
  }

  ghost predicate TailItems(c: Codec, t: Type, v: Value, i: nat)
    requires v.Items? && i <= |v.items|
    decreases v, 0, |v.items| - i
  {
    i < |v.items| ==>
      && Tail(c, t, v.items[i])
      && (Greedy(c, t, v.items[i]) ==> EncodeItems(c, t, v, i + 1) == [])
      && TailItems(c, t, v, i + 1)
  }

  ghost predicate TailFields(c: Codec, fields: seq<Field>, v: Value, i: nat)
    requires v.Record?
    decreases v, 0, |fields| - i
  {
    i < |fields| && i < |v.fields| ==>
      && TailField(c, fields[i], v.fields[i])
      && (GreedyField(c, fields[i], v.fields[i]) ==> EncodeFields(c, fields, v, i + 1) == [])
      && TailFields(c, fields, v, i + 1)
  }

  ghost predicate TailField(c: Codec, f: Field, v: Value)
    decreases v, 2
  {
    match (f, v)
    case (Plain(t), _) => Tail(c, t, v)
    case (FixedItems(_, _, elem, _), Items(items)) => TailItems(c, elem, v, 0)
    case _ => true
  }

  // ---- what a value costs the decoder ---------------------------------------------------

  /** Elements and bytes charged, levels needed, and whether each single limit is kept. */
  datatype Bill = Bill(elements: nat, heap: nat, depth: nat, within: bool)

  const Free := Bill(0, 0, 0, true)
  const OneDown := Bill(0, 0, 1, true)

  function Plus(a: Bill, b: Bill): Bill {
    Bill(a.elements + b.elements, a.heap + b.heap, if a.depth > b.depth then a.depth else b.depth, a.within && b.within)
  }

  function Down(a: Bill): Bill {
    a.(depth := a.depth + 1)
  }

  ghost function Cost(c: Codec, t: Type, v: Value): Bill
    decreases v, 1
  {
    match (t, v)
    case (Text, Data(data)) => Bill(0, |data|, 1, |data| <= c.limits.stringBytes)
    case (Vector(elem, size), Items(items)) => Plus(OneDown, CountedCost(c, elem, size, v))
    case (Optional(_), Absent) => OneDown
    case (Optional(elem), Present(inner)) => Plus(OneDown, Down(Cost(c, elem, inner)))
    case (Named(n), _) =>
      (match (c.Decl(n), v)
       case (Struct(fields), Record(values)) => FieldsCost(c, fields, v, 0)
       case (Tagged(variants), Case(k, payload)) =>
         if k < |variants| then Plus(OneDown, Down(Cost(c, variants[k].payload, payload))) else OneDown
       case _ => OneDown)
    case _ => Free
  }

  ghost function CountedCost(c: Codec, elem: Type, size: nat, v: Value): Bill
    requires v.Items?
    decreases v, 0, |v.items| + 1
  {
    var n := |v.items|;
    Plus(Bill(n, n * size, 0, n <= c.limits.collection), ItemsCost(c, elem, v, 0))
  }

  ghost function ItemsCost(c: Codec, t: Type, v: Value, i: nat): Bill
    requires v.Items? && i <= |v.items|
    decreases v, 0, |v.items| - i
  {
    if i == |v.items| then Free else Plus(Down(Cost(c, t, v.items[i])), ItemsCost(c, t, v, i + 1))
  }

  ghost function FieldsCost(c: Codec, fields: seq<Field>, v: Value, i: nat): Bill
    requires v.Record?
    decreases v, 0, |fields| - i
  {
    if i >= |fields| || i >= |v.fields| then Free
    else Plus(FieldCost(c, fields[i], v.fields[i]), FieldsCost(c, fields, v, i + 1))
  }

  ghost function FieldCost(c: Codec, f: Field, v: Value): Bill
    decreases v, 2
  {
    match (f, v)
    case (Plain(t), _) => Down(Cost(c, t, v))
    case (FixedBytes(_, _), Data(data)) => Bill(|data|, |data|, 0, |data| <= c.limits.collection)
    case (FixedItems(_, _, elem, size), Items(items)) => CountedCost(c, elem, size, v)
    case (Remaining, Data(data)) => Bill(0, |data|, 0, |data| <= c.limits.remaining)
    case _ => Free
  }

  predicate Fits(c: Codec, b: Bill, s: Input) {
    && b.within
    && s.elements + b.elements <= c.limits.total
    && s.heap + b.heap <= c.limits.allocation
    && s.depth + b.depth <= c.limits.depth
  }

  function After(s: Input, b: Bill, rest: bytes): Input {
    s.(rest := rest, elements := s.elements + b.elements, heap := s.heap + b.heap)
  }

  /** A decoder that succeeds exactly when the bill fits, charging exactly the bill. */
  ghost predicate Paid<T>(c: Codec, r: Outcome<T>, b: Bill, v: T, s: Input, rest: bytes) {
    if Fits(c, b, s) then r == Ok(v, After(s, b, rest)) else r.Err?
  }

  // ---- the steps of the round trip ---------------------------------------------------------

  lemma LengthBack(c: Codec, n: nat, s: Input, more: bytes)
    requires n <= I32_MAX && s.rest == EncodeLength(n) + more
    ensures TakeVar(W32, s) == Ok(n, s.(rest := more))
  {
    assert I32.Wrap(n) == n;
    TakeVarEncoded(W32, n, s, more);
  }

  lemma TextBack(c: Codec, data: bytes, s: Input, more: bytes)
    requires Bounded(c, s) && |data| <= I32_MAX && c.utf8(data)
    requires s.rest == EncodeLength(|data|) + data + more
    ensures Paid(c, WithText(c, s), Bill(0, |data|, 1, |data| <= c.limits.stringBytes), Data(data), s, more)
  {
    assert s.rest == EncodeLength(|data|) + (data + more);
    LengthBack(c, |data|, s, data + more);
    assert (data + more)[..|data|] == data && (data + more)[|data|..] == more;
    hide TakeVar, EncodeVar;
  }

  lemma DiscBack(repr: IntType, form: DiscForm, disc: int, s: Input, more: bytes)
    requires repr.InRange(disc) && Survives(repr, form, disc) && s.rest == EncodeDisc(repr, form, disc) + more
    ensures TakeDisc(repr, form, s) == Ok(disc, s.(rest := more))
  {
    match form
    case AsRepr => TakeIntEncoded(repr, disc, s, more);
    case AsVarint(W32) => TakeVarEncoded(W32, I32.Wrap(disc), s, more);
    case AsVarint(W64) => TakeVarEncoded(W64, I64.Wrap(disc), s, more);
  }

  lemma BytesBack(c: Codec, data: bytes, s: Input, more: bytes)
    requires Bounded(c, s) && s.rest == data + more
    ensures Paid(c, ExactBytes(c, |data|, s), Bill(|data|, |data|, 0, |data| <= c.limits.collection), Data(data), s, more)
  {
    assert s.rest[..|data|] == data && s.rest[|data|..] == more;
  }

  lemma RestBack(c: Codec, s: Input)
    requires Bounded(c, s)
    ensures Paid(c, AllTheRest(c, s), Bill(0, |s.rest|, 0, |s.rest| <= c.limits.remaining), Data(s.rest), s, [])
  {}

  /** One level down and up again. */
  lemma CallPaid(c: Codec, t: Type, v: Value, b: Bill, s: Input, more: bytes)
    requires Bounded(c, s)
    requires s.depth < c.limits.depth ==> Paid(c, With(c, t, s.(depth := s.depth + 1)), b, v, s.(depth := s.depth + 1), more)
    ensures Paid(c, Call(c, t, s), Down(b), v, s, more)
  {
    hide With;
  }

  lemma VectorSteps(c: Codec, elem: Type, size: nat, s: Input, n: nat, after: bytes)
    requires Bounded(c, s) && TakeVar(W32, s) == Ok(n, s.(rest := after))
    ensures var r := With(c, Vector(elem, size), s);
            if s.depth >= c.limits.depth || n > c.limits.collection then r.Err?
            else r == Counted(c, elem, n, size, s.(rest := after))
  {
    hide TakeVar, Counted;
  }

  lemma OptionalSteps(c: Codec, elem: Type, v: Value, a: Bill, s: Input, after: bytes, more: bytes)
    requires Bounded(c, s) && s.rest == [1] + after
    requires Paid(c, Call(c, elem, s.(rest := after)), a, v, s.(rest := after), more)
    ensures Paid(c, With(c, Optional(elem), s), Plus(OneDown, a), Present(v), s, more)
  {
    assert s.rest[..1] == [1] && s.rest[1..] == after;
    hide Call;
  }

  lemma AbsentSteps(c: Codec, elem: Type, s: Input, more: bytes)
    requires Bounded(c, s) && s.rest == [0] + more
    ensures Paid(c, With(c, Optional(elem), s), OneDown, Absent, s, more)
  {
    assert s.rest[..1] == [0] && s.rest[1..] == more;
    hide Call;
  }

  lemma TaggedSteps(c: Codec, n: nat, variants: seq<Variant>, k: nat, v: Value, a: Bill, s: Input, after: bytes, more: bytes)
    requires Bounded(c, s) && c.Decl(n) == Tagged(variants) && k < |variants|
    requires TakeVar(W32, s) == Ok(variants[k].id, s.(rest := after)) && FindVariant(variants, variants[k].id) == Some(k)
    requires Paid(c, Call(c, variants[k].payload, s.(rest := after)), a, v, s.(rest := after), more)
    ensures Paid(c, With(c, Named(n), s), Plus(OneDown, a), Case(k, v), s, more)
  {
    hide Call, TakeVar, FindVariant;
  }

  lemma ListSteps(c: Codec, t: Type, n: nat, s: Input, v: Value, tail: seq<Value>, a: Bill, b: Bill, after: bytes, more: bytes)
    requires Bounded(c, s) && n > 0
    requires Paid(c, Call(c, t, s), a, v, s, after)
    requires Fits(c, a, s) ==> Paid(c, List(c, t, n - 1, After(s, a, after)), b, tail, After(s, a, after), more)
    ensures Paid(c, List(c, t, n, s), Plus(a, b), [v] + tail, s, more)
  {
    assert Fits(c, a, s) ==> Bounded(c, After(s, a, after));
    hide Call;
  }

  lemma CountedSteps(c: Codec, elem: Type, n: nat, size: nat, s: Input, items: seq<Value>, b: Bill, more: bytes)
    requires Bounded(c, s)
    requires var charged := s.(elements := s.elements + n, heap := s.heap + n * size);
             Bounded(c, charged) ==> Paid(c, List(c, elem, n, charged), b, items, charged, more)
    ensures Paid(c, Counted(c, elem, n, size, s), Plus(Bill(n, n * size, 0, n <= c.limits.collection), b), Items(items), s, more)
  {
    hide List;
  }

  // ---- the round trip -------------------------------------------------------------------------

  predicate IsLeaf(t: Type) {
    !(t.Vector? || t.Optional? || t.Named?)
  }

  lemma LeafBack(c: Codec, t: Type, v: Value, s: Input, more: bytes)
    requires Bounded(c, s) && IsLeaf(t) && Typed(Reads, c, t, v) && s.rest == Encode(c, t, v) + more
    ensures Paid(c, With(c, t, s), Cost(c, t, v), v, s, more)
  {
    match t
    case Integer(i) => TakeIntEncoded(i, v.n, s, more);
    case Boolean => assert s.rest[..1] == Encode(c, t, v) && s.rest[1..] == more;
    case Var(w) => TakeVarEncoded(w, v.n, s, more);
    case Fixed(n) => assert s.rest[..n] == v.data && s.rest[n..] == more;
    case Text =>
      TextBack(c, v.data, s, more);
      hide WithText;
  }

  lemma {:induction false} WithBack(c: Codec, t: Type, v: Value, s: Input, more: bytes)
    requires Sound(c) && Bounded(c, s) && Typed(Reads, c, t, v) && Tail(c, t, v) && (Greedy(c, t, v) ==> more == [])
    requires s.rest == Encode(c, t, v) + more
    ensures Paid(c, With(c, t, s), Cost(c, t, v), v, s, more)
    decreases v, 1
  {
    hide With, Paid, TypedItems, TailItems, GreedyItems, CountedCost, TypedFields, TailFields, GreedyFields, FieldsCost;
    match t
    case Vector(elem, size) => VectorBack(c, elem, size, v, s, more);
    case Optional(elem) => OptionalBack(c, elem, v, s, more);
    case Named(n) => {
      match c.Decl(n)
      case Struct(fields) => StructBack(c, n, fields, v, s, more);
      case Tagged(variants) => TaggedBack(c, n, variants, v, s, more);
      case Repr(repr, form, discs) => ReprBack(c, n, repr, form, discs, v, s, more);
    }
    case _ => LeafBack(c, t, v, s, more);
  }

  lemma {:induction false} StructBack(c: Codec, n: nat, fields: seq<Field>, v: Value, s: Input, more: bytes)
    requires Sound(c) && Bounded(c, s) && c.Decl(n) == Struct(fields) && v.Record? && |v.fields| == |fields|
    requires TypedFields(Reads, c, fields, v) && TailFields(c, fields, v, 0) && (GreedyFields(c, fields, v, 0) ==> more == [])
    requires s.rest == EncodeFields(c, fields, v, 0) + more
    ensures Paid(c, With(c, Named(n), s), FieldsCost(c, fields, v, 0), v, s, more)
    decreases v, 0, |fields| + 1
  {
    FieldsBack(c, fields, v, 0, s, more);
    assert v.fields[..0] == [];
    hide Fields, FieldsCost;
  }

  lemma {:induction false} CallBack(c: Codec, t: Type, v: Value, s: Input, more: bytes)
    requires Sound(c) && Bounded(c, s) && Typed(Reads, c, t, v) && Tail(c, t, v) && (Greedy(c, t, v) ==> more == [])
    requires s.rest == Encode(c, t, v) + more
    ensures Paid(c, Call(c, t, s), Down(Cost(c, t, v)), v, s, more)
    decreases v, 2
  {
    hide With, Cost, Encode, Typed, Tail, Greedy, Call, Paid;
    if s.depth < c.limits.depth {
      WithBack(c, t, v, s.(depth := s.depth + 1), more);
    }
    CallPaid(c, t, v, Cost(c, t, v), s, more);
  }

  lemma {:induction false} VectorBack(c: Codec, elem: Type, size: nat, v: Value, s: Input, more: bytes)
    requires Sound(c) && Bounded(c, s) && v.Items? && |v.items| <= I32_MAX && TypedItems(Reads, c, elem, v) && TailItems(c, elem, v, 0)
    requires (GreedyItems(c, elem, v, 0) ==> more == []) && s.rest == EncodeLength(|v.items|) + EncodeItems(c, elem, v, 0) + more
    ensures Paid(c, With(c, Vector(elem, size), s), Plus(OneDown, CountedCost(c, elem, size, v)), v, s, more)
    decreases v, 0, |v.items| + 2
  {
    hide TakeVar, Counted, With, EncodeItems, TailItems, GreedyItems, TypedItems, ItemsCost;
    var after := EncodeItems(c, elem, v, 0) + more;
    assert s.rest == EncodeLength(|v.items|) + after;
    LengthBack(c, |v.items|, s, after);
    CountedBack(c, elem, size, v, s.(rest := after), more);
    VectorSteps(c, elem, size, s, |v.items|, after);
  }

  lemma {:induction false} CountedBack(c: Codec, elem: Type, size: nat, v: Value, s: Input, more: bytes)
    requires Sound(c) && Bounded(c, s) && v.Items? && TypedItems(Reads, c, elem, v) && TailItems(c, elem, v, 0)
    requires (GreedyItems(c, elem, v, 0) ==> more == []) && s.rest == EncodeItems(c, elem, v, 0) + more
    ensures Paid(c, Counted(c, elem, |v.items|, size, s), CountedCost(c, elem, size, v), v, s, more)
    decreases v, 0, |v.items| + 1
  {
    hide List, Counted, ItemsCost, EncodeItems, TailItems, GreedyItems, TypedItems, Paid;
    var n := |v.items|;
    var charged := s.(elements := s.elements + n, heap := s.heap + n * size);
    if Bounded(c, charged) {
      ListBack(c, elem, v, 0, charged, more);
    }
    assert v.items[0..] == v.items;
    CountedSteps(c, elem, n, size, s, v.items, ItemsCost(c, elem, v, 0), more);
  }

  lemma {:induction false} ListBack(c: Codec, t: Type, v: Value, i: nat, s: Input, more: bytes)
    requires Sound(c) && Bounded(c, s) && v.Items? && i <= |v.items| && TypedItems(Reads, c, t, v) && TailItems(c, t, v, i)
    requires (GreedyItems(c, t, v, i) ==> more == []) && s.rest == EncodeItems(c, t, v, i) + more
    ensures Paid(c, List(c, t, |v.items| - i, s), ItemsCost(c, t, v, i), v.items[i..], s, more)
    decreases v, 0, |v.items| - i
  {
    hide Call, List, Cost, Encode, Typed, Tail, Greedy, Paid, EncodeItems, ItemsCost, TypedItems, TailItems, GreedyItems, Fits;
    if i == |v.items| {
      NoItemsBack(c, t, v, s, more);
    } else {
      var (item, after) := (v.items[i], EncodeItems(c, t, v, i + 1) + more);
      ItemsNext(c, t, v, i);
      assert s.rest == Encode(c, t, item) + after;
      CallBack(c, t, item, s, after);
      var head := Down(Cost(c, t, item));
      if Fits(c, head, s) {
        FitsBounds(c, head, s, after);
        ListBack(c, t, v, i + 1, After(s, head, after), more);
      }
      ListSteps(c, t, |v.items| - i, s, item, v.items[i + 1..], head, ItemsCost(c, t, v, i + 1), after, more);
      assert v.items[i..] == [item] + v.items[i + 1..];
    }
  }

  lemma NoItemsBack(c: Codec, t: Type, v: Value, s: Input, more: bytes)
    requires Bounded(c, s) && v.Items? && s.rest == EncodeItems(c, t, v, |v.items|) + more
    ensures Paid(c, List(c, t, 0, s), ItemsCost(c, t, v, |v.items|), v.items[|v.items|..], s, more)
  {
    assert s.rest == more && v.items[|v.items|..] == [];
  }

  lemma FitsBounds(c: Codec, b: Bill, s: Input, rest: bytes)
    requires Bounded(c, s) && Fits(c, b, s)
    ensures Bounded(c, After(s, b, rest))
  {}

  /** The recursive functions on items, one step on. */
  lemma ItemsNext(c: Codec, t: Type, v: Value, i: nat)
    requires v.Items? && i < |v.items|
    ensures EncodeItems(c, t, v, i) == Encode(c, t, v.items[i]) + EncodeItems(c, t, v, i + 1)
    ensures ItemsCost(c, t, v, i) == Plus(Down(Cost(c, t, v.items[i])), ItemsCost(c, t, v, i + 1))
    ensures GreedyItems(c, t, v, i) <==> Greedy(c, t, v.items[i]) || GreedyItems(c, t, v, i + 1)
    ensures TailItems(c, t, v, i) <==>
      Tail(c, t, v.items[i]) && (Greedy(c, t, v.items[i]) ==> EncodeItems(c, t, v, i + 1) == []) && TailItems(c, t, v, i + 1)
    ensures TypedItems(Reads, c, t, v) ==> Typed(Reads, c, t, v.items[i])
  {
    hide Encode, Cost, Greedy, Tail, Typed;
  }

  lemma {:induction false} OptionalBack(c: Codec, elem: Type, v: Value, s: Input, more: bytes)
    requires Sound(c) && Bounded(c, s)
    requires var t := Optional(elem);
             && Typed(Reads, c, t, v) && Tail(c, t, v) && (Greedy(c, t, v) ==> more == []) && s.rest == Encode(c, t, v) + more
    ensures Paid(c, With(c, Optional(elem), s), Cost(c, Optional(elem), v), v, s, more)
    decreases v, 0
  {
    hide Call, With, Paid;
    if v.Absent? {
      AbsentSteps(c, elem, s, more);
    } else {
      var after := Encode(c, elem, v.inner) + more;
      assert s.rest == [1] + after;
      CallBack(c, elem, v.inner, s.(rest := after), more);
      OptionalSteps(c, elem, v.inner, Down(Cost(c, elem, v.inner)), s, after, more);
    }
  }

  lemma {:induction false} TaggedBack(c: Codec, n: nat, variants: seq<Variant>, v: Value, s: Input, more: bytes)
    requires Sound(c) && Bounded(c, s) && c.Decl(n) == Tagged(variants)
    requires var t := Named(n);
             && Typed(Reads, c, t, v) && Tail(c, t, v) && (Greedy(c, t, v) ==> more == []) && s.rest == Encode(c, t, v) + more
    ensures Paid(c, With(c, Named(n), s), Cost(c, Named(n), v), v, s, more)
    decreases v, 0
  {
    assert SoundDecl(c.decls[n]);
    var variant := variants[v.k];
    var after := Encode(c, variant.payload, v.payload) + more;
    assert s.rest == EncodeVar(W32, variant.id) + after;
    TakeVarEncoded(W32, variant.id, s, after);
    assert FindVariant(variants, variant.id) == Some(v.k);
    hide Call, TakeVar, FindVariant, With, EncodeVar, Paid;
    CallBack(c, variant.payload, v.payload, s.(rest := after), more);
    TaggedSteps(c, n, variants, v.k, v.payload, Down(Cost(c, variant.payload, v.payload)), s, after, more);
  }

  lemma ReprBack(c: Codec, n: nat, repr: IntType, form: DiscForm, discs: seq<int>, v: Value, s: Input, more: bytes)
    requires Sound(c) && Bounded(c, s) && c.Decl(n) == Repr(repr, form, discs)
    requires Typed(Reads, c, Named(n), v) && s.rest == Encode(c, Named(n), v) + more
    ensures Paid(c, With(c, Named(n), s), Cost(c, Named(n), v), v, s, more)
  {
    assert SoundDecl(c.decls[n]);
    var disc := discs[v.k];
    DiscBack(repr, form, disc, s, more);
    assert FindDisc(discs, disc) == Some(v.k);
    hide TakeDisc, FindDisc;
  }

  lemma {:induction false} FieldsBack(c: Codec, fields: seq<Field>, v: Value, i: nat, s: Input, more: bytes)
    requires Sound(c) && Bounded(c, s) && v.Record? && i <= |v.fields| == |fields|
    requires TypedFields(Reads, c, fields, v) && TailFields(c, fields, v, i) && (GreedyFields(c, fields, v, i) ==> more == [])
    requires s.rest == EncodeFields(c, fields, v, i) + more
    ensures Paid(c, Fields(c, fields, v.fields[..i], s), FieldsCost(c, fields, v, i), v.fields, s, more)
    decreases v, 0, |fields| - i
  {
    if i == |fields| {
      assert v.fields[..i] == v.fields;
    } else {
      var (f, x, after) := (fields[i], v.fields[i], EncodeFields(c, fields, v, i + 1) + more);
      assert s.rest == EncodeField(c, f, x) + after;
      FieldBack(c, f, v.fields[..i], x, s, after);
      var head := FieldCost(c, f, x);
      if Fits(c, head, s) {
        FieldsBack(c, fields, v, i + 1, After(s, head, after), more);
        assert v.fields[..i] + [x] == v.fields[..i + 1];
      }
      hide OneField, FieldCost, EncodeField, TypedField, TailField, GreedyField;
    }
  }

  lemma {:induction false} FieldBack(c: Codec, f: Field, earlier: seq<Value>, v: Value, s: Input, more: bytes)
    requires Sound(c) && Bounded(c, s) && TypedField(Reads, c, f, earlier, v) && TailField(c, f, v) && (GreedyField(c, f, v) ==> more == [])
    requires s.rest == EncodeField(c, f, v) + more
    ensures Paid(c, OneField(c, f, earlier, s), FieldCost(c, f, v), v, s, more)
    decreases v, 3
  {
    match f
    case Plain(t) => CallBack(c, t, v, s, more);
    case FixedBytes(e, _) => BytesBack(c, v.data, s, more);
    case FixedItems(e, _, elem, size) => CountedBack(c, elem, size, v, s, more);
    case Remaining =>
      assert s.rest == v.data;
      RestBack(c, s);
  }

  /** Decoding what was encoded, followed by any bytes, gives the value back and leaves
      exactly those bytes, if and only if the limits allow the value; a value with a
      `remaining` field must come last. */
  lemma RoundTrip(c: Codec, t: Type, v: Value, more: bytes)
    requires Sound(c) && Typed(Reads, c, t, v) && Tail(c, t, v) && (Greedy(c, t, v) ==> more == [])
    ensures var r := Call(c, t, Input(Encode(c, t, v) + more, 0, 0, 0));
            if Fits(c, Down(Cost(c, t, v)), Input([], 0, 0, 0))
            then r.Ok? && r.value == v && r.next.rest == more && r.next.depth == 0
            else r.Err?
  {
    CallBack(c, t, v, Input(Encode(c, t, v) + more, 0, 0, 0), more);
  }
}
