/** The encoder panics when a length overflows or is not that of its vector. What it
    does write is decoded back for exactly the values whose lengths both sides read
    alike. */
module Packets {
  import opened VarInt
  import opened Wire
  import opened Lengths
  import opened Schema
  import opened SchemaLaws
  import opened SchemaInputs

  lemma LengthOnBothSides(overflow: Overflow, e: Expr, num: IntType, env: seq<int>, n: nat)
    ensures LengthIs(Tames, overflow, e, num, env, n) ==> LengthIs(Reads, overflow, e, num, env, n) && LengthIs(Writes, overflow, e, num, env, n)
    ensures overflow.Panics? && LengthIs(Reads, overflow, e, num, env, n) && LengthIs(Writes, overflow, e, num, env, n) ==>
      LengthIs(Tames, overflow, e, num, env, n)
    ensures LengthIs(Writes, overflow, e, num, env, n) ==> LengthIs(Shape, overflow, e, num, env, n)
  {
    hide Native, Checked, Length;
    if Bound(num, e, env) { EvaluatorsAgree(num, e, env); }
    if Bound(num, e, env) && Tame(num, e, env) { TameValue(overflow, num, e, env); }
  }

  /** A value whose lengths are tame is one that both sides agree on; with overflow
      checks on there are no others. */
  lemma {:induction false} BothSides(c: Codec, t: Type, v: Value)
    ensures Typed(Tames, c, t, v) ==> Typed(Reads, c, t, v) && Typed(Writes, c, t, v)
    ensures c.overflow.Panics? && Typed(Reads, c, t, v) && Typed(Writes, c, t, v) ==> Typed(Tames, c, t, v)
    decreases v, 1
  {
    match (t, v) {
      case (Vector(elem, _), Items(_)) => ItemsOnBothSides(c, elem, v);
      case (Optional(elem), Present(inner)) => BothSides(c, elem, inner);
      case (Named(n), _) =>
        match (c.Decl(n), v) {
          case (Struct(fields), Record(values)) =>
            if |values| == |fields| { FieldsOnBothSides(c, fields, v); }
          case (Tagged(variants), Case(k, payload)) =>
            if k < |variants| { BothSides(c, variants[k].payload, payload); }
          case _ =>
        }
      case _ =>
    }
  }

  lemma {:induction false} ItemsOnBothSides(c: Codec, t: Type, v: Value)
    requires v.Items?
    ensures TypedItems(Tames, c, t, v) ==> TypedItems(Reads, c, t, v) && TypedItems(Writes, c, t, v)
    ensures c.overflow.Panics? && TypedItems(Reads, c, t, v) && TypedItems(Writes, c, t, v) ==> TypedItems(Tames, c, t, v)
    decreases v, 0
  {
    forall i | 0 <= i < |v.items|
      ensures Typed(Tames, c, t, v.items[i]) ==> Typed(Reads, c, t, v.items[i]) && Typed(Writes, c, t, v.items[i])
      ensures c.overflow.Panics? && Typed(Reads, c, t, v.items[i]) && Typed(Writes, c, t, v.items[i]) ==> Typed(Tames, c, t, v.items[i])
    {
      BothSides(c, t, v.items[i]);
    }
  }

  lemma {:induction false} FieldsOnBothSides(c: Codec, fields: seq<Field>, v: Value)
    requires v.Record? && |v.fields| == |fields|
    ensures TypedFields(Tames, c, fields, v) ==> TypedFields(Reads, c, fields, v) && TypedFields(Writes, c, fields, v)
    ensures c.overflow.Panics? && TypedFields(Reads, c, fields, v) && TypedFields(Writes, c, fields, v) ==>
      TypedFields(Tames, c, fields, v)
    decreases v, 0
  {
    hide TypedField;
    forall i | 0 <= i < |fields|
      ensures var (f, earlier, x) := (fields[i], v.fields[..i], v.fields[i]);
              && (TypedField(Tames, c, f, earlier, x) ==> TypedField(Reads, c, f, earlier, x) && TypedField(Writes, c, f, earlier, x))
              && (c.overflow.Panics? && TypedField(Reads, c, f, earlier, x) && TypedField(Writes, c, f, earlier, x) ==>
                   TypedField(Tames, c, f, earlier, x))
    {
      FieldOnBothSides(c, fields[i], v.fields[..i], v.fields[i]);
    }
  }

  lemma {:induction false} FieldOnBothSides(c: Codec, f: Field, earlier: seq<Value>, v: Value)
    ensures TypedField(Tames, c, f, earlier, v) ==> TypedField(Reads, c, f, earlier, v) && TypedField(Writes, c, f, earlier, v)
    ensures c.overflow.Panics? && TypedField(Reads, c, f, earlier, v) && TypedField(Writes, c, f, earlier, v) ==>
      TypedField(Tames, c, f, earlier, v)
    decreases v, 2
  {
    hide LengthIs, Numbers;
    match (f, v)
    case (Plain(t), _) => BothSides(c, t, v);
    case (FixedBytes(e, num), Data(data)) => LengthOnBothSides(c.overflow, e, num, Numbers(earlier), |data|);
    case (FixedItems(e, num, elem, _), Items(items)) =>
      LengthOnBothSides(c.overflow, e, num, Numbers(earlier), |items|);
      ItemsOnBothSides(c, elem, v);
    case _ =>
  }

  predicate ReadBack(r: Outcome<Value>, v: Value, more: bytes) {
    r.Ok? && r.value == v && r.next.rest == more
  }

  /** What the encoder writes, followed by any bytes, is decoded back with exactly those
      bytes left if and only if the decoder computes the lengths that were written and
      the limits allow the value. With overflow checks on that is when every
      subexpression of every length is non-negative and fits and no vector outgrows its
      prefix; without them this is still enough. */
  lemma WrittenIsReadBack(c: Codec, open: set<nat>, t: Type, v: Value, more: bytes)
    requires Sound(c) && Disciplined(c, open) && WellNested(open, t) && Typed(Writes, c, t, v)
    requires Opens(open, t) ==> more == []
    ensures var (r, fits) := (Call(c, t, Input(Encode(c, t, v) + more, 0, 0, 0)),
                              Fits(c, Down(Cost(c, t, v)), Input([], 0, 0, 0)));
            && (ReadBack(r, v, more) <==> Typed(Reads, c, t, v) && fits)
            && (Typed(Tames, c, t, v) && fits ==> ReadBack(r, v, more))
            && (c.overflow.Panics? ==> (ReadBack(r, v, more) <==> Typed(Tames, c, t, v) && fits))
  {
    var s := Input(Encode(c, t, v) + more, 0, 0, 0);
    BothSides(c, t, v);
    if Typed(Reads, c, t, v) { DisciplinedRoundTrip(c, open, t, v, more); }
    CallAccount(c, t, s);
    hide Call, Cost, Typed, Encode, Sound, Disciplined;
  }

  /** Whatever bytes a value was decoded from: if the encoder does not panic on it, what it
      writes decodes to the same value again, and with overflow checks on it does not panic
      exactly when the lengths are tame. */
  lemma Reencoded(c: Codec, open: set<nat>, t: Type, input: bytes)
    requires Sound(c) && Disciplined(c, open) && WellNested(open, t) && DecodeExact(c, t, input).Ok?
    ensures var v := DecodeExact(c, t, input).value;
            && DecodeExact(c, t, Encode(c, t, v)).Ok? && DecodeExact(c, t, Encode(c, t, v)).value == v
            && (Typed(Tames, c, t, v) ==> Typed(Writes, c, t, v))
            && (c.overflow.Panics? ==> (Typed(Writes, c, t, v) <==> Typed(Tames, c, t, v)))
  {
    var s := Input(input, 0, 0, 0);
    CallAccount(c, t, s);
    var v := Call(c, t, s).value;
    BothSides(c, t, v);
    DisciplinedRoundTrip(c, open, t, v, []);
    assert Encode(c, t, v) + [] == Encode(c, t, v);
    hide Call, Cost, Typed, Encode;
  }

  /** Without overflow checks a value outside that class may come back all the same: with
      200, 100 and 100 in one byte each, 200 + 100 - 100 wraps twice. */
  lemma WrappingMayRecover()
    ensures var e := Binary(Sub, Binary(Add, Name(0), Name(1)), Name(1));
            && LengthIs(Reads, Wraps, e, U8, [200, 100], 200) && LengthIs(Writes, Wraps, e, U8, [200, 100], 200)
            && !LengthIs(Tames, Wraps, e, U8, [200, 100], 200)
  {
    assert U8.Wrap(300) == 44 && U8.Wrap(-56) == 200;
  }
}
