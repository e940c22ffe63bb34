/** What a decoder has charged when it stops, be it with a value or with an error.

    The accepted charges are added up along the input, without looking at the totals the
    decoder keeps. */
module Charges {
  import opened VarInt
  import opened Wire
  import opened Lengths
  import opened Schema
  import opened SchemaLaws
  import opened SchemaInputs

  datatype Sum = Sum(elements: nat, heap: nat)

  const NoCharge := Sum(0, 0)

  function And(a: Sum, b: Sum): Sum {
    Sum(a.elements + b.elements, a.heap + b.heap)
  }

  predicate TakesElements(c: Codec, s: Input, n: nat) {
    n <= c.limits.collection && s.elements + n <= c.limits.total
  }

  predicate TakesBytes(c: Codec, s: Input, n: nat) {
    s.heap + n <= c.limits.allocation
  }

  // ---- charges along the input ------------------------------------------------------------

  ghost function CallCharges(c: Codec, t: Type, s: Input): Sum
    requires Bounded(c, s)
    decreases c.limits.depth - s.depth, 0
  {
    if s.depth >= c.limits.depth then NoCharge else WithCharges(c, t, s.(depth := s.depth + 1))
  }

  ghost function WithCharges(c: Codec, t: Type, s: Input): Sum
    requires Bounded(c, s)
    decreases c.limits.depth - s.depth, 5
  {
    match t
    case Text => TextCharges(c, s)
    case Vector(elem, size) =>
      var raw := TakeVar(W32, s);
      if s.depth < c.limits.depth && raw.Ok? && 0 <= raw.value <= c.limits.collection
      then CountedCharges(c, elem, raw.value, raw.value * size, raw.next)
      else NoCharge
    case Optional(elem) =>
      if s.depth < c.limits.depth && s.rest != [] && s.rest[0] != 0
      then CallCharges(c, elem, s.(rest := s.rest[1..]))
      else NoCharge
    case Named(n) =>
      (match c.Decl(n)
       case Struct(fields) => FieldsCharges(c, fields, [], s)
       case Tagged(variants) =>
         var id := TakeVar(W32, s);
         if s.depth < c.limits.depth && id.Ok? && FindVariant(variants, id.value).Some?
         then CallCharges(c, variants[FindVariant(variants, id.value).value].payload, id.next)
         else NoCharge
       case Repr(_, _, _) => NoCharge)
    case _ => NoCharge
  }

  ghost function TextCharges(c: Codec, s: Input): Sum {
    var raw := TakeVar(W32, s);
    if s.depth < c.limits.depth && raw.Ok? && 0 <= raw.value <= c.limits.stringBytes && TakesBytes(c, s, raw.value)
    then Sum(0, raw.value)
    else NoCharge
  }

  /** A vector's elements, then its `total` bytes, then what its items charge. */
  ghost function CountedCharges(c: Codec, elem: Type, len: nat, total: nat, s: Input): Sum
    requires Bounded(c, s)
    decreases c.limits.depth - s.depth, 2
  {
    if !TakesElements(c, s, len) then NoCharge
    else if !TakesBytes(c, s, total) then Sum(len, 0)
    else And(Sum(len, total), ListCharges(c, elem, len, s.(elements := s.elements + len, heap := s.heap + total)))
  }

  ghost function ListCharges(c: Codec, t: Type, n: nat, s: Input): Sum
    requires Bounded(c, s)
    decreases c.limits.depth - s.depth, 1, n
  {
    if n == 0 then NoCharge
    else
      var item := Call(c, t, s);
      And(CallCharges(c, t, s), if item.Ok? then ListCharges(c, t, n - 1, item.next) else NoCharge)
  }

  ghost function FieldsCharges(c: Codec, fields: seq<Field>, done: seq<Value>, s: Input): Sum
    requires Bounded(c, s) && |done| <= |fields|
    decreases c.limits.depth - s.depth, 4, |fields| - |done|
  {
    if |done| == |fields| then NoCharge
    else
      var field := OneField(c, fields[|done|], done, s);
      And(FieldCharges(c, fields[|done|], done, s),
          if field.Ok? then FieldsCharges(c, fields, done + [field.value], field.next) else NoCharge)
  }

  ghost function FieldCharges(c: Codec, f: Field, done: seq<Value>, s: Input): Sum
    requires Bounded(c, s)
    decreases c.limits.depth - s.depth, 3
  {
    match f
    case Plain(t) => CallCharges(c, t, s)
    case FixedBytes(e, _) => (match Checked(e, Numbers(done))
                              case None => NoCharge
                              case Some(len) => ExactCharges(c, len, s))
    case FixedItems(e, _, elem, size) => (match Checked(e, Numbers(done))
                                          case None => NoCharge
                                          case Some(len) => CountedCharges(c, elem, len, len * size, s))
    case Remaining =>
      if |s.rest| <= c.limits.remaining && TakesBytes(c, s, |s.rest|) then Sum(0, |s.rest|) else NoCharge
  }

  /** Both charges stand even when the bytes are not there. */
  ghost function ExactCharges(c: Codec, len: nat, s: Input): Sum {
    if !TakesElements(c, s, len) then NoCharge
    else if !TakesBytes(c, s, len) then Sum(len, 0)
    else Sum(len, len)
  }

  // ---- the totals are the charges -----------------------------------------------------------

  ghost predicate Ledger(s: Input, next: Input, sum: Sum) {
    next.elements == s.elements + sum.elements && next.heap == s.heap + sum.heap
  }

  lemma {:induction false} CallLedger(c: Codec, t: Type, s: Input)
    requires Bounded(c, s)
    ensures Ledger(s, Call(c, t, s).next, CallCharges(c, t, s))
    decreases c.limits.depth - s.depth, 0
  {
    hide With, WithCharges;
    if s.depth < c.limits.depth {
      WithLedger(c, t, s.(depth := s.depth + 1));
    }
  }

  lemma {:induction false} WithLedger(c: Codec, t: Type, s: Input)
    requires Bounded(c, s)
    ensures Ledger(s, With(c, t, s).next, WithCharges(c, t, s))
    decreases c.limits.depth - s.depth, 5
  {
    hide With, WithCharges, Ledger;
    match t
    case Vector(elem, size) => VectorLedger(c, elem, size, s);
    case Optional(elem) => OptionalLedger(c, elem, s);
    case Named(n) => {
      match c.Decl(n)
      case Struct(fields) => StructLedger(c, n, fields, s);
      case Tagged(variants) => TaggedLedger(c, n, variants, s);
      case Repr(repr, form, discs) => ReprLedger(c, n, repr, form, discs, s);
    }
    case _ => LeafLedger(c, t, s);
  }

  lemma LeafLedger(c: Codec, t: Type, s: Input)
    requires Bounded(c, s) && IsLeaf(t)
    ensures Ledger(s, With(c, t, s).next, WithCharges(c, t, s))
  {
    if t.Text? {
      TextLedger(c, s);
      hide WithText, TextCharges;
    } else {
      hide WithText, TextCharges, TakeVar, TakeInt;
      if t.Integer? { IntTotals(t.t, s); }
    }
  }

  lemma IntTotals(t: IntType, s: Input)
    ensures TakeInt(t, s).next == s.(rest := TakeInt(t, s).next.rest)
  {}

  lemma TextLedger(c: Codec, s: Input)
    requires Bounded(c, s)
    ensures Ledger(s, WithText(c, s).next, TextCharges(c, s))
  {
    hide TakeVar;
  }

  lemma ReprLedger(c: Codec, n: nat, repr: IntType, form: DiscForm, discs: seq<int>, s: Input)
    requires Bounded(c, s) && c.Decl(n) == Repr(repr, form, discs)
    ensures Ledger(s, With(c, Named(n), s).next, WithCharges(c, Named(n), s))
  {
    TakeDiscAdvances(repr, form, s);
    hide TakeDisc, FindDisc;
  }

  lemma {:induction false} OptionalLedger(c: Codec, elem: Type, s: Input)
    requires Bounded(c, s)
    ensures Ledger(s, With(c, Optional(elem), s).next, WithCharges(c, Optional(elem), s))
    decreases c.limits.depth - s.depth, 4
  {
    OptionalCharges(c, elem, s);
    if s.depth < c.limits.depth && s.rest != [] && s.rest[0] != 0 {
      WithOptional(c, elem, s);
      CallLedger(c, elem, s.(rest := s.rest[1..]));
    } else {
      WithAbsent(c, elem, s);
    }
    hide With, WithCharges, Call, CallCharges;
  }

  lemma OptionalCharges(c: Codec, elem: Type, s: Input)
    requires Bounded(c, s)
    ensures WithCharges(c, Optional(elem), s) ==
            if s.depth < c.limits.depth && s.rest != [] && s.rest[0] != 0
            then CallCharges(c, elem, s.(rest := s.rest[1..])) else NoCharge
  {
    hide CallCharges;
  }

  lemma {:induction false} TaggedLedger(c: Codec, n: nat, variants: seq<Variant>, s: Input)
    requires Bounded(c, s) && c.Decl(n) == Tagged(variants)
    ensures Ledger(s, With(c, Named(n), s).next, WithCharges(c, Named(n), s))
    decreases c.limits.depth - s.depth, 4
  {
    var id := TakeVar(W32, s);
    TaggedCharges(c, n, variants, s);
    hide TakeVar, FindVariant, With, WithCharges, Call, CallCharges;
    WithTagged(c, n, variants, s);
    if s.depth < c.limits.depth && id.Ok? && FindVariant(variants, id.value).Some? {
      CallLedger(c, variants[FindVariant(variants, id.value).value].payload, id.next);
    }
  }

  lemma TaggedCharges(c: Codec, n: nat, variants: seq<Variant>, s: Input)
    requires Bounded(c, s) && c.Decl(n) == Tagged(variants)
    ensures var id := TakeVar(W32, s);
            WithCharges(c, Named(n), s) ==
            if s.depth < c.limits.depth && id.Ok? && FindVariant(variants, id.value).Some?
            then CallCharges(c, variants[FindVariant(variants, id.value).value].payload, id.next) else NoCharge
  {
    hide CallCharges, TakeVar, FindVariant;
  }

  lemma {:induction false} StructLedger(c: Codec, n: nat, fields: seq<Field>, s: Input)
    requires Bounded(c, s) && c.Decl(n) == Struct(fields)
    ensures Ledger(s, With(c, Named(n), s).next, WithCharges(c, Named(n), s))
    decreases c.limits.depth - s.depth, 4, |fields| + 1
  {
    FieldsLedger(c, fields, [], s);
    hide Fields, FieldsCharges;
  }

  lemma {:induction false} VectorLedger(c: Codec, elem: Type, size: nat, s: Input)
    requires Bounded(c, s)
    ensures Ledger(s, With(c, Vector(elem, size), s).next, WithCharges(c, Vector(elem, size), s))
    decreases c.limits.depth - s.depth, 4
  {
    var raw := TakeVar(W32, s);
    VectorCharges(c, elem, size, s);
    hide TakeVar, With, WithCharges, Counted, CountedCharges;
    WithVector(c, elem, size, s);
    if s.depth < c.limits.depth && raw.Ok? && 0 <= raw.value <= c.limits.collection {
      CountedLedger(c, elem, raw.value, size, raw.next);
    }
  }

  lemma VectorCharges(c: Codec, elem: Type, size: nat, s: Input)
    requires Bounded(c, s)
    ensures var raw := TakeVar(W32, s);
            WithCharges(c, Vector(elem, size), s) ==
            if s.depth < c.limits.depth && raw.Ok? && 0 <= raw.value <= c.limits.collection
            then CountedCharges(c, elem, raw.value, raw.value * size, raw.next) else NoCharge
  {
    hide CountedCharges, TakeVar;
  }

  lemma {:induction false} CountedLedger(c: Codec, elem: Type, len: nat, size: nat, s: Input)
    requires Bounded(c, s)
    ensures Ledger(s, Counted(c, elem, len, size, s).next, CountedCharges(c, elem, len, len * size, s))
    decreases c.limits.depth - s.depth, 2
  {
    var total := len * size;
    hide List, ListCharges, Counted, CountedCharges;
    var charged := s.(elements := s.elements + len, heap := s.heap + total);
    if TakesElements(c, s, len) && TakesBytes(c, s, total) {
      ListLedger(c, elem, len, charged);
    }
    CountedCases(c, elem, len, size, total, s);
  }

  lemma CountedCases(c: Codec, elem: Type, len: nat, size: nat, total: nat, s: Input)
    requires Bounded(c, s) && total == len * size
    requires var charged := s.(elements := s.elements + len, heap := s.heap + total);
             TakesElements(c, s, len) && TakesBytes(c, s, total) ==>
               Ledger(charged, List(c, elem, len, charged).next, ListCharges(c, elem, len, charged))
    ensures Ledger(s, Counted(c, elem, len, size, s).next, CountedCharges(c, elem, len, total, s))
  {
    CountedNext(c, elem, len, size, total, s);
    hide List, ListCharges, Counted;
  }

  lemma CountedNext(c: Codec, elem: Type, len: nat, size: nat, total: nat, s: Input)
    requires Bounded(c, s) && total == len * size
    ensures var charged := s.(elements := s.elements + len, heap := s.heap + total);
            Counted(c, elem, len, size, s).next ==
              if !TakesElements(c, s, len) then s
              else if !TakesBytes(c, s, total) then s.(elements := s.elements + len)
              else List(c, elem, len, charged).next
  {
    hide List;
  }

  lemma {:induction false} ListLedger(c: Codec, t: Type, n: nat, s: Input)
    requires Bounded(c, s)
    ensures Ledger(s, List(c, t, n, s).next, ListCharges(c, t, n, s))
    decreases c.limits.depth - s.depth, 1, n
  {
    hide Call, CallCharges;
    if n > 0 {
      CallLedger(c, t, s);
      var item := Call(c, t, s);
      if item.Ok? { ListLedger(c, t, n - 1, item.next); }
    }
  }

  lemma {:induction false} FieldsLedger(c: Codec, fields: seq<Field>, done: seq<Value>, s: Input)
    requires Bounded(c, s) && |done| <= |fields|
    ensures Ledger(s, Fields(c, fields, done, s).next, FieldsCharges(c, fields, done, s))
    decreases c.limits.depth - s.depth, 4, |fields| - |done|
  {
    hide OneField, FieldCharges;
    if |done| < |fields| {
      FieldLedger(c, fields[|done|], done, s);
      var field := OneField(c, fields[|done|], done, s);
      if field.Ok? { FieldsLedger(c, fields, done + [field.value], field.next); }
    }
  }

  lemma {:induction false} FieldLedger(c: Codec, f: Field, done: seq<Value>, s: Input)
    requires Bounded(c, s)
    ensures Ledger(s, OneField(c, f, done, s).next, FieldCharges(c, f, done, s))
    decreases c.limits.depth - s.depth, 3
  {
    hide Call, CallCharges, Counted, CountedCharges, ExactBytes, ExactCharges, Checked;
    match f
    case Plain(t) => CallLedger(c, t, s);
    case FixedBytes(e, _) =>
      if Checked(e, Numbers(done)).Some? { ExactLedger(c, Checked(e, Numbers(done)).value, s); }
    case FixedItems(e, _, elem, size) =>
      if Checked(e, Numbers(done)).Some? { CountedLedger(c, elem, Checked(e, Numbers(done)).value, size, s); }
    case Remaining =>
  }

  lemma ExactLedger(c: Codec, len: nat, s: Input)
    requires Bounded(c, s)
    ensures Ledger(s, ExactBytes(c, len, s).next, ExactCharges(c, len, s))
  {}

  /** For every input, every schema and every limits, whether a value or an error comes
      out: the bytes left are a suffix of the input, the depth is as before, and the totals
      have grown by exactly the charges that were accepted, within their limits. With a
      value those are what the value costs. */
  lemma AnyInput(c: Codec, t: Type, s: Input)
    requires Bounded(c, s)
    ensures var (r, sum) := (Call(c, t, s), CallCharges(c, t, s));
      && Bounded(c, r.next) && Suffix(r.next.rest, s.rest) && r.next.depth == s.depth
      && r.next.elements == s.elements + sum.elements && r.next.heap == s.heap + sum.heap
      && (r.Ok? ==> var b := Down(Cost(c, t, r.value));
                    Typed(Reads, c, t, r.value) && Fits(c, b, s) && sum == Sum(b.elements, b.heap))
  {
    CallAccount(c, t, s);
    CallLedger(c, t, s);
    hide Call, CallCharges, Cost, Typed, Suffix;
  }
}
