/** What the decoder has decided it stays with, however the input goes on; and what its errors
    say of the limits. */
module Prefixes {
  import opened Options
  import opened VarInt
  import opened Wire
  import opened Lengths
  import opened Schema
  import opened SchemaLaws
  import opened SchemaInputs

  function Longer(s: Input, more: bytes): Input {
    s.(rest := s.rest + more)
  }

  /** Unless it came to the end of the input, a step ends the same way on a longer input. */
  ghost predicate Final<T>(r: Outcome<T>, q: Outcome<T>, more: bytes) {
    match r
    case Ok(v, next) => q == Ok(v, Longer(next, more))
    case Err(e, next) => e == UnexpectedEof || q == Err(e, Longer(next, more))
  }

  function LimitOf(l: Limits, kind: LimitKind): usize {
    match kind
    case StringBytes => l.stringBytes
    case CollectionElements => l.collection
    case TotalElements => l.total
    case AllocationBytes => l.allocation
    case RemainingBytes => l.remaining
    case NbtBytes => l.nbtBytes
    case DecodeDepth => l.depth
  }

  /** A limit that is reported as exceeded is the limit of that kind, and less than was asked for. */
  ghost predicate Honest<T>(l: Limits, r: Outcome<T>) {
    r.Err? && r.error.LimitExceeded? ==> r.error.limit == LimitOf(l, r.error.kind) && r.error.requested > r.error.limit
  }

  /** Both, the first for types that cannot take all that is left. */
  ghost predicate Settled<T>(c: Codec, closed: bool, r: Outcome<T>, q: Outcome<T>, more: bytes) {
    Honest(c.limits, r) && (closed ==> Final(r, q, more))
  }

  // ---- the primitive steps ---------------------------------------------------------------

  lemma TakeFinal(s: Input, n: nat, more: bytes)
    ensures Final(Take(s, n), Take(Longer(s, more), n), more)
    ensures Take(s, n).Err? ==> Take(s, n).error == UnexpectedEof
  {
    if n <= |s.rest| {
      assert (s.rest + more)[..n] == s.rest[..n] && (s.rest + more)[n..] == s.rest[n..] + more;
    }
  }

  lemma TakeIntFinal(t: IntType, s: Input, more: bytes)
    ensures Final(TakeInt(t, s), TakeInt(t, Longer(s, more)), more)
  {
    TakeFinal(s, t.Bytes(), more);
    hide Take, FromBigEndian, IntType.Wrap, IntType.Bytes;
  }

  lemma {:induction false} ReadFinal(w: Width, input: bytes, more: bytes, i: nat, value: nat)
    requires i <= w.MaxBytes() && i <= |input|
    ensures var r := Read(w, input, i, value); !r.Eof? ==> Read(w, input + more, i, value) == r
    decreases w.MaxBytes() - i
  {
    if i < w.MaxBytes() && i < |input| {
      assert (input + more)[i] == input[i];
      ReadFinal(w, input, more, i + 1, value + Shifted(input[i] % 128, i));
    }
  }

  lemma TakeVarIs(w: Width, s: Input)
    ensures var r := ReadVar(w, s.rest);
      && r.used <= |s.rest|
      && match r
         case Value(value, used) => value < w.Modulus() && TakeVar(w, s) == Ok(w.FromPattern(value), s.(rest := s.rest[used..]))
         case Eof(used) => TakeVar(w, s) == Err(UnexpectedEof, s.(rest := s.rest[used..]))
         case Overlong(used) => TakeVar(w, s) == Err(InvalidVarintLength, s.(rest := s.rest[used..]))
  {
    VarFits(w, s.rest);
    hide ReadVar, Width.Modulus, Width.FromPattern;
  }

  lemma TakeVarFinal(w: Width, s: Input, more: bytes)
    ensures Final(TakeVar(w, s), TakeVar(w, Longer(s, more)), more)
  {
    ReadFinal(w, s.rest, more, 0, 0);
    var r := ReadVar(w, s.rest);
    assert !r.Eof? ==> ReadVar(w, s.rest + more) == r;
    hide Read, ReadVar, Width.Modulus, Width.FromPattern, TakeVar;
    TakeVarIs(w, s);
    TakeVarIs(w, Longer(s, more));
    RestOfLonger(s.rest, more, r.used);
  }

  lemma RestOfLonger(a: bytes, more: bytes, n: nat)
    requires n <= |a|
    ensures (a + more)[n..] == a[n..] + more
  {}

  lemma TakeDiscFinal(repr: IntType, form: DiscForm, s: Input, more: bytes)
    ensures Final(TakeDisc(repr, form, s), TakeDisc(repr, form, Longer(s, more)), more)
  {
    match form {
      case AsRepr => TakeIntFinal(repr, s, more);
      case AsVarint(w) => TakeVarFinal(w, s, more);
    }
    hide TakeVar, TakeInt, IntType.Wrap;
  }

  lemma TextSettled(c: Codec, s: Input, more: bytes)
    requires Bounded(c, s)
    ensures Settled(c, true, WithText(c, s), WithText(c, Longer(s, more)), more)
  {
    TakeVarFinal(W32, s, more);
    TakeVarErrs(W32, s);
    TakeVarAdvances(W32, s);
    var raw := TakeVar(W32, s);
    hide TakeVar, ChargeAllocation, Take, Suffix;
    if s.depth < c.limits.depth && raw.Ok? && 0 <= raw.value <= c.limits.stringBytes {
      var charge := ChargeAllocation(c.limits, raw.next, raw.value);
      ChargeIgnoresRest(c.limits, raw.next, raw.value, more);
      if charge.Ok? { TakeFinal(charge.next, raw.value, more); }
    }
  }

  lemma ChargeIgnoresRest(l: Limits, s: Input, amount: nat, more: bytes)
    ensures var r := ChargeAllocation(l, s, amount);
      && Settled(Codec([], _ => true, l, Panics), true, r, ChargeAllocation(l, Longer(s, more), amount), more)
      && (r.Err? ==> r.error != UnexpectedEof)
  {}

  /** Only limits are reported as limits. */
  lemma TakeVarErrs(w: Width, s: Input)
    ensures TakeVar(w, s).Err? ==> !TakeVar(w, s).error.LimitExceeded?
  {
    hide ReadVar, Width.Modulus, Width.FromPattern;
  }

  lemma TakeIntErrs(t: IntType, s: Input)
    ensures TakeInt(t, s).Err? ==> !TakeInt(t, s).error.LimitExceeded?
  {}

  lemma BytesSettled(c: Codec, len: nat, s: Input, more: bytes)
    requires Bounded(c, s)
    ensures Settled(c, true, ExactBytes(c, len, s), ExactBytes(c, len, Longer(s, more)), more)
  {
    TakeFinal(s.(elements := s.elements + len, heap := s.heap + len), len, more);
  }

  lemma RestSettled(c: Codec, s: Input, more: bytes)
    requires Bounded(c, s)
    ensures Honest(c.limits, AllTheRest(c, s))
  {}

  lemma {:induction false} ReadGoesOn(w: Width, input: bytes, i: nat, value: nat)
    requires i <= w.MaxBytes() && i <= |input| && Read(w, input, i, value).Eof?
    ensures Read(w, input + [0], i, value).Value?
    decreases w.MaxBytes() - i
  {
    if i < |input| {
      assert (input + [0])[i] == input[i];
      ReadGoesOn(w, input, i + 1, value + Shifted(input[i] % 128, i));
    }
  }

  /** The end of the input is reported for a number if and only if some more bytes would complete
      it; if nothing would, its length is what is wrong. */
  lemma VarErrors(w: Width, s: Input)
    requires TakeVar(w, s).Err?
    ensures TakeVar(w, s).error == UnexpectedEof <==> exists more :: TakeVar(w, Longer(s, more)).Ok?
    ensures TakeVar(w, s).error != UnexpectedEof ==> TakeVar(w, s).error == InvalidVarintLength
  {
    VarFits(w, s.rest);
    if ReadVar(w, s.rest).Eof? {
      ReadGoesOn(w, s.rest, 0, 0);
      VarFits(w, s.rest + [0]);
      assert TakeVar(w, Longer(s, [0])).Ok?;
    } else {
      forall more ensures TakeVar(w, Longer(s, more)).Err? { TakeVarFinal(w, s, more); }
    }
    hide Read, Width.Modulus, Width.FromPattern;
  }

  // ---- every type --------------------------------------------------------------------------

  /** No value of the type takes all that is left. */
  ghost predicate Closed(c: Codec, open: set<nat>, t: Type) {
    Disciplined(c, open) && WellNested(open, t) && !Opens(open, t)
  }

  lemma {:induction false} CallSettled(c: Codec, open: set<nat>, t: Type, s: Input, more: bytes)
    requires Bounded(c, s)
    ensures Settled(c, Closed(c, open, t), Call(c, t, s), Call(c, t, Longer(s, more)), more)
    decreases c.limits.depth - s.depth, 0
  {
    hide With, Closed;
    if s.depth < c.limits.depth {
      WithSettled(c, open, t, s.(depth := s.depth + 1), more);
    }
  }

  lemma {:induction false} WithSettled(c: Codec, open: set<nat>, t: Type, s: Input, more: bytes)
    requires Bounded(c, s)
    ensures Settled(c, Closed(c, open, t), With(c, t, s), With(c, t, Longer(s, more)), more)
    decreases c.limits.depth - s.depth, 5
  {
    hide With, Settled, Disciplined;
    match t
    case Vector(elem, size) => VectorSettled(c, open, elem, size, s, more);
    case Optional(elem) => OptionalSettled(c, open, elem, s, more);
    case Named(n) => {
      match c.Decl(n)
      case Struct(fields) => StructSettled(c, open, n, fields, s, more);
      case Tagged(variants) => TaggedSettled(c, open, n, variants, s, more);
      case Repr(repr, form, discs) =>
        ReprSettled(c, n, repr, form, discs, s, more);
        SettledAnyway(c, Closed(c, open, t), With(c, t, s), With(c, t, Longer(s, more)), more);
    }
    case _ =>
      LeafSettled(c, t, s, more);
      SettledAnyway(c, Closed(c, open, t), With(c, t, s), With(c, t, Longer(s, more)), more);
  }

  lemma SettledAnyway<T>(c: Codec, closed: bool, r: Outcome<T>, q: Outcome<T>, more: bytes)
    requires Settled(c, true, r, q, more)
    ensures Settled(c, closed, r, q, more)
  {}

  lemma LeafSettled(c: Codec, t: Type, s: Input, more: bytes)
    requires Bounded(c, s) && IsLeaf(t)
    ensures Settled(c, true, With(c, t, s), With(c, t, Longer(s, more)), more)
  {
    match t
    case Integer(i) =>
      TakeIntFinal(i, s, more);
      TakeIntErrs(i, s);
      hide TakeInt;
    case Boolean => TakeFinal(s, 1, more);
    case Var(w) =>
      TakeVarFinal(w, s, more);
      TakeVarErrs(w, s);
      hide TakeVar;
    case Fixed(n) => TakeFinal(s, n, more);
    case Text =>
      TextSettled(c, s, more);
      hide WithText;
  }

  lemma ReprSettled(c: Codec, n: nat, repr: IntType, form: DiscForm, discs: seq<int>, s: Input, more: bytes)
    requires Bounded(c, s) && c.Decl(n) == Repr(repr, form, discs)
    ensures Settled(c, true, With(c, Named(n), s), With(c, Named(n), Longer(s, more)), more)
  {
    TakeDiscFinal(repr, form, s, more);
    TakeDiscErrs(repr, form, s);
    WithRepr(c, n, repr, form, discs, s);
    WithRepr(c, n, repr, form, discs, Longer(s, more));
    hide TakeDisc, FindDisc, With, Codec.Decl;
  }

  lemma WithRepr(c: Codec, n: nat, repr: IntType, form: DiscForm, discs: seq<int>, s: Input)
    requires Bounded(c, s) && c.Decl(n) == Repr(repr, form, discs)
    ensures var (r, d) := (With(c, Named(n), s), TakeDisc(repr, form, s));
            if s.depth >= c.limits.depth then r == Err(LimitExceeded(DecodeDepth, s.depth + 1, c.limits.depth), s)
            else if d.Err? then r == Err(d.error, d.next)
            else if FindDisc(discs, d.value).None? then r == Err(InvalidPacketId(None), d.next)
            else r == Ok(Unit(FindDisc(discs, d.value).value), d.next)
  {
    hide TakeDisc, FindDisc;
  }

  lemma TakeDiscErrs(repr: IntType, form: DiscForm, s: Input)
    ensures TakeDisc(repr, form, s).Err? ==> !TakeDisc(repr, form, s).error.LimitExceeded?
  {
    match form {
      case AsRepr => TakeIntErrs(repr, s);
      case AsVarint(w) => TakeVarErrs(w, s);
    }
    hide TakeInt, TakeVar;
  }

  lemma {:induction false} OptionalSettled(c: Codec, open: set<nat>, elem: Type, s: Input, more: bytes)
    requires Bounded(c, s)
    ensures Settled(c, Closed(c, open, Optional(elem)), With(c, Optional(elem), s), With(c, Optional(elem), Longer(s, more)), more)
    decreases c.limits.depth - s.depth, 4
  {
    hide Call, Disciplined;
    TakeFinal(s, 1, more);
    if s.depth < c.limits.depth && s.rest != [] {
      CallSettled(c, open, elem, Take(s, 1).next, more);
    }
  }

  lemma {:induction false} TaggedSettled(c: Codec, open: set<nat>, n: nat, variants: seq<Variant>, s: Input, more: bytes)
    requires Bounded(c, s) && c.Decl(n) == Tagged(variants)
    ensures Settled(c, Closed(c, open, Named(n)), With(c, Named(n), s), With(c, Named(n), Longer(s, more)), more)
    decreases c.limits.depth - s.depth, 4
  {
    hide Call, TakeVar, FindVariant;
    TakeVarFinal(W32, s, more);
    TakeVarErrs(W32, s);
    TakeVarAdvances(W32, s);
    var id := TakeVar(W32, s);
    if s.depth < c.limits.depth && id.Ok? && FindVariant(variants, id.value).Some? {
      var k := FindVariant(variants, id.value).value;
      VariantClosed(c, open, n, variants, k);
      CallSettled(c, open, variants[k].payload, id.next, more);
    }
  }

  lemma VariantClosed(c: Codec, open: set<nat>, n: nat, variants: seq<Variant>, k: nat)
    requires c.Decl(n) == Tagged(variants) && k < |variants|
    ensures Closed(c, open, Named(n)) ==> Closed(c, open, variants[k].payload)
  {
    if Closed(c, open, Named(n)) { assert DisciplinedDecl(open, n, c.decls[n]); }
  }

  lemma {:induction false} VectorSettled(c: Codec, open: set<nat>, elem: Type, size: nat, s: Input, more: bytes)
    requires Bounded(c, s)
    ensures var t := Vector(elem, size); Settled(c, Closed(c, open, t), With(c, t, s), With(c, t, Longer(s, more)), more)
    decreases c.limits.depth - s.depth, 4
  {
    hide Counted, TakeVar, Disciplined;
    TakeVarFinal(W32, s, more);
    TakeVarErrs(W32, s);
    TakeVarAdvances(W32, s);
    var raw := TakeVar(W32, s);
    if s.depth < c.limits.depth && raw.Ok? && 0 <= raw.value <= c.limits.collection {
      CountedSettled(c, open, elem, raw.value, size, raw.next, more);
    }
  }

  lemma {:induction false} CountedSettled(c: Codec, open: set<nat>, elem: Type, len: nat, size: nat, s: Input, more: bytes)
    requires Bounded(c, s)
    ensures Settled(c, Closed(c, open, elem), Counted(c, elem, len, size, s), Counted(c, elem, len, size, Longer(s, more)), more)
    decreases c.limits.depth - s.depth, 2
  {
    hide List, Closed;
    var charged := s.(elements := s.elements + len, heap := s.heap + len * size);
    if Bounded(c, charged) {
      ListSettled(c, open, elem, len, charged, more);
    }
    CountedEnds(c, Closed(c, open, elem), elem, len, size, len * size, s, more);
  }

  lemma CountedEnds(c: Codec, closed: bool, elem: Type, len: nat, size: nat, total: nat, s: Input, more: bytes)
    requires Bounded(c, s) && total == len * size
    requires var charged := s.(elements := s.elements + len, heap := s.heap + total);
             Bounded(c, charged) ==> Settled(c, closed, List(c, elem, len, charged), List(c, elem, len, Longer(charged, more)), more)
    ensures Settled(c, closed, Counted(c, elem, len, size, s), Counted(c, elem, len, size, Longer(s, more)), more)
  {
    hide List;
  }

  lemma {:induction false} ListSettled(c: Codec, open: set<nat>, t: Type, n: nat, s: Input, more: bytes)
    requires Bounded(c, s)
    ensures Settled(c, Closed(c, open, t), List(c, t, n, s), List(c, t, n, Longer(s, more)), more)
    decreases c.limits.depth - s.depth, 1, n
  {
    hide Call, Closed;
    if n > 0 {
      CallSettled(c, open, t, s, more);
      var head := Call(c, t, s);
      if head.Ok? { ListSettled(c, open, t, n - 1, head.next, more); }
    }
  }

  lemma {:induction false} StructSettled(c: Codec, open: set<nat>, n: nat, fields: seq<Field>, s: Input, more: bytes)
    requires Bounded(c, s) && c.Decl(n) == Struct(fields)
    ensures Settled(c, Closed(c, open, Named(n)), With(c, Named(n), s), With(c, Named(n), Longer(s, more)), more)
    decreases c.limits.depth - s.depth, 4, |fields| + 1
  {
    FieldsClosed(c, open, n, fields);
    hide Fields, Closed, ClosedField;
    FieldsSettled(c, open, fields, [], s, more);
  }

  ghost predicate ClosedField(c: Codec, open: set<nat>, f: Field) {
    match f
    case Plain(t) => Closed(c, open, t)
    case FixedItems(_, _, elem, _) => Closed(c, open, elem)
    case FixedBytes(_, _) => true
    case Remaining => false
  }

  ghost predicate AllClosed(c: Codec, open: set<nat>, fields: seq<Field>) {
    forall i :: 0 <= i < |fields| ==> ClosedField(c, open, fields[i])
  }

  lemma FieldsClosed(c: Codec, open: set<nat>, n: nat, fields: seq<Field>)
    requires c.Decl(n) == Struct(fields)
    ensures Closed(c, open, Named(n)) ==> AllClosed(c, open, fields)
  {
    if Closed(c, open, Named(n)) && n < |c.decls| { assert DisciplinedDecl(open, n, c.decls[n]); }
  }

  lemma {:induction false} FieldsSettled(c: Codec, open: set<nat>, fields: seq<Field>, done: seq<Value>, s: Input, more: bytes)
    requires Bounded(c, s) && |done| <= |fields|
    ensures Settled(c, AllClosed(c, open, fields), Fields(c, fields, done, s), Fields(c, fields, done, Longer(s, more)), more)
    decreases c.limits.depth - s.depth, 4, |fields| - |done|
  {
    hide OneField, ClosedField;
    if |done| < |fields| {
      FieldSettled(c, open, fields[|done|], done, s, more);
      var head := OneField(c, fields[|done|], done, s);
      if head.Ok? { FieldsSettled(c, open, fields, done + [head.value], head.next, more); }
    }
  }

  lemma {:induction false} FieldSettled(c: Codec, open: set<nat>, f: Field, done: seq<Value>, s: Input, more: bytes)
    requires Bounded(c, s)
    ensures Settled(c, ClosedField(c, open, f), OneField(c, f, done, s), OneField(c, f, done, Longer(s, more)), more)
    decreases c.limits.depth - s.depth, 3
  {
    hide Call, Counted, Checked, Closed, ExactBytes, AllTheRest;
    match f
    case Plain(t) => CallSettled(c, open, t, s, more);
    case FixedBytes(e, _) =>
      if Checked(e, Numbers(done)).Some? { BytesSettled(c, Checked(e, Numbers(done)).value, s, more); }
    case FixedItems(e, _, elem, size) =>
      if Checked(e, Numbers(done)).Some? { CountedSettled(c, open, elem, Checked(e, Numbers(done)).value, size, s, more); }
    case Remaining => RestSettled(c, s, more);
  }

  // ---- what follows ------------------------------------------------------------------------

  /** For every schema, limits and input: what the decoder made of a closed type, value or error,
      it makes of every longer input, unless it had come to the end of the input. */
  lemma DecisionsAreFinal(c: Codec, open: set<nat>, t: Type, s: Input, more: bytes)
    requires Bounded(c, s) && Closed(c, open, t)
    ensures var (r, q) := (Call(c, t, s), Call(c, t, s.(rest := s.rest + more)));
      if r.Ok? then q == Ok(r.value, r.next.(rest := r.next.rest + more))
      else r.error != UnexpectedEof ==> q == Err(r.error, r.next.(rest := r.next.rest + more))
  {
    CallSettled(c, open, t, s, more);
    hide Call, Disciplined;
  }

  /** For every schema, limits and input: a limit reported as exceeded is the one configured, and
      what was asked for is more. */
  lemma ErrorsAreHonest(c: Codec, t: Type, s: Input)
    requires Bounded(c, s)
    ensures var r := Call(c, t, s);
            r.Err? && r.error.LimitExceeded? ==> r.error.limit == LimitOf(c.limits, r.error.kind) && r.error.requested > r.error.limit
  {
    CallSettled(c, {}, t, s, []);
    hide Call, Disciplined;
  }

  /** Cut short anywhere, the encoding of a value the limits allow is an unexpected end of input,
      and nothing else. */
  lemma CutShort(c: Codec, open: set<nat>, t: Type, v: Value, n: nat)
    requires Sound(c) && Closed(c, open, t) && Typed(Reads, c, t, v)
    requires Fits(c, Down(Cost(c, t, v)), Input([], 0, 0, 0)) && n < |Encode(c, t, v)|
    ensures var r := Call(c, t, Input(Encode(c, t, v)[..n], 0, 0, 0)); r.Err? && r.error == UnexpectedEof
  {
    var e := Encode(c, t, v);
    hide Encode, Call, Disciplined, Typed, Cost, WellNested, Sound;
    DisciplinedRoundTrip(c, open, t, v, []);
    assert e + [] == e && e[..n] + e[n..] == e;
    CallSettled(c, open, t, Input(e[..n], 0, 0, 0), e[n..]);
  }

  /** No encoding is the beginning of another one. */
  lemma PrefixFree(c: Codec, open: set<nat>, t: Type, v: Value, w: Value)
    requires Sound(c) && Closed(c, open, t) && Typed(Reads, c, t, v) && Typed(Reads, c, t, w)
    requires Fits(c, Down(Cost(c, t, v)), Input([], 0, 0, 0)) && Fits(c, Down(Cost(c, t, w)), Input([], 0, 0, 0))
    requires Encode(c, t, v) <= Encode(c, t, w)
    ensures v == w
  {
    var (e, f) := (Encode(c, t, v), Encode(c, t, w));
    hide Encode, Call, Disciplined, Typed, Cost, WellNested, Sound;
    DisciplinedRoundTrip(c, open, t, v, []);
    DisciplinedRoundTrip(c, open, t, w, []);
    assert e + [] == e && f + [] == f && e + f[|e|..] == f;
    CallSettled(c, open, t, Input(e, 0, 0, 0), f[|e|..]);
  }

  /** Every byte is a flag, and a marker of an option, and all but 0 say yes. */
  lemma FlagsAreLoose(c: Codec, elem: Type, s: Input)
    requires Bounded(c, s) && s.depth < c.limits.depth && s.rest != []
    ensures With(c, Boolean, s) == Ok(Flag(s.rest[0] != 0), s.(rest := s.rest[1..]))
    ensures With(c, Optional(elem), s).Ok? ==> (With(c, Optional(elem), s).value.Present? <==> s.rest[0] != 0)
    ensures With(c, Optional(elem), s).Err? ==> s.rest[0] != 0 && Call(c, elem, s.(rest := s.rest[1..])).Err?
  {
    hide Call;
  }

  // ---- what is refused -----------------------------------------------------------------------

  /** A negative length is invalid, and one over the limit exceeds it, before anything else of a
      text or of a list is looked at. */
  lemma BadLengths(c: Codec, elem: Type, size: nat, n: int, s: Input, more: bytes)
    requires Bounded(c, s) && s.depth < c.limits.depth && W32.Signed(n) && s.rest == EncodeVar(W32, n) + more
    ensures var (r, after) := (With(c, Vector(elem, size), s), s.(rest := more));
      && (n < 0 ==> r == Err(InvalidLength, after))
      && (n > c.limits.collection ==> r == Err(LimitExceeded(CollectionElements, n, c.limits.collection), after))
    ensures var (r, after) := (With(c, Text, s), s.(rest := more));
      && (n < 0 ==> r == Err(InvalidLength, after))
      && (n > c.limits.stringBytes ==> r == Err(LimitExceeded(StringBytes, n, c.limits.stringBytes), after))
  {
    TakeVarEncoded(W32, n, s, more);
    hide TakeVar, Counted, EncodeVar, Width.Signed;
  }

  /** A text that is no UTF-8 is refused once it has been read. */
  lemma BadText(c: Codec, data: bytes, s: Input, more: bytes)
    requires Bounded(c, s) && s.depth < c.limits.depth && !c.utf8(data) && |data| <= I32_MAX
    requires |data| <= c.limits.stringBytes && s.heap + |data| <= c.limits.allocation
    requires s.rest == EncodeLength(|data|) + data + more
    ensures With(c, Text, s) == Err(InvalidLength, s.(rest := more, heap := s.heap + |data|))
  {
    assert s.rest == EncodeLength(|data|) + (data + more);
    LengthBack(c, |data|, s, data + more);
    assert (data + more)[..|data|] == data && (data + more)[|data|..] == more;
    hide TakeVar, EncodeVar;
  }

  /** An identifier of no variant is refused, and named in the error if it is a byte. */
  lemma UnknownVariant(c: Codec, n: nat, variants: seq<Variant>, id: int, s: Input, more: bytes)
    requires Bounded(c, s) && s.depth < c.limits.depth && c.Decl(n) == Tagged(variants)
    requires W32.Signed(id) && s.rest == EncodeVar(W32, id) + more && forall k :: 0 <= k < |variants| ==> variants[k].id != id
    ensures var r := With(c, Named(n), s);
      && r.Err? && r.next == s.(rest := more) && r.error.InvalidPacketId?
      && forall b: byte :: r.error.id == Some(b) <==> b == id
  {
    TakeVarEncoded(W32, id, s, more);
    assert FindVariant(variants, id).None?;
    hide TakeVar, Call, EncodeVar, Width.Signed, FindVariant;
  }

  lemma UnknownDiscriminant(c: Codec, n: nat, repr: IntType, form: DiscForm, discs: seq<int>, disc: int, s: Input, more: bytes)
    requires Bounded(c, s) && s.depth < c.limits.depth && c.Decl(n) == Repr(repr, form, discs)
    requires repr.InRange(disc) && Survives(repr, form, disc) && disc !in discs && s.rest == EncodeDisc(repr, form, disc) + more
    ensures With(c, Named(n), s) == Err(InvalidPacketId(None), s.(rest := more))
  {
    DiscBack(repr, form, disc, s, more);
    WithRepr(c, n, repr, form, discs, s);
    hide TakeDisc, FindDisc, EncodeDisc, With, Survives, Codec.Decl;
  }
}
