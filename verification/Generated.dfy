/** The code the derives generate: encoders that append to a buffer and decoders
    that advance a decoder field by field. */
module Generated {
  import opened Options
  import opened VarInt
  import opened Wire
  import opened Lengths
  import opened Schema
  import opened Sequences

  class Buffer {
    var data: bytes

    constructor ()
      ensures data == []
    {
      data := [];
    }

    method Push(b: byte)
      modifies this
      ensures data == old(data) + [b]
    {
      data := data + [b];
    }

    method Extend(b: bytes)
      modifies this
      ensures data == old(data) + b
    {
      data := data + b;
    }
  }

  // ---- encoding ----------------------------------------------------------------------

  /** Appends a value; not `ok` is a panic, after which the buffer is lost. */
  method EncodeValue(c: Codec, t: Type, v: Value, buf: Buffer) returns (ok: bool)
    requires Typed(Shape, c, t, v)
    modifies buf
    ensures ok <==> Typed(Writes, c, t, v)
    ensures ok ==> buf.data == old(buf.data) + Encode(c, t, v)
    decreases v, 1
  {
    ok := true;
    match (t, v)
    case (Integer(i), Num(n)) => buf.Extend(EncodeInt(i, n));
    case (Boolean, Flag(b)) => buf.Push(if b then 1 else 0);
    case (Var(w), Num(n)) =>
      var b := WriteVar(w, n);
      buf.Extend(b);
    case (Fixed(_), Data(data)) => buf.Extend(data);
    case (Text, Data(data)) =>
      buf.Extend(EncodeLength(|data|));
      buf.Extend(data);
      assert EncodeLength(|data|) + data == Encode(c, t, v);
    case (Vector(elem, _), Items(items)) =>
      buf.Extend(EncodeLength(|items|));
      ok := EncodeList(c, elem, v, buf);
    case (Optional(_), Absent) => buf.Push(0);
    case (Optional(elem), Present(inner)) =>
      buf.Push(1);
      ok := EncodeValue(c, elem, inner, buf);
    case (Named(n), _) => ok := EncodeNamed(c, n, v, buf);
  }

  method EncodeNamed(c: Codec, n: nat, v: Value, buf: Buffer) returns (ok: bool)
    requires Typed(Shape, c, Named(n), v)
    modifies buf
    ensures ok <==> Typed(Writes, c, Named(n), v)
    ensures ok ==> buf.data == old(buf.data) + Encode(c, Named(n), v)
    decreases v, 0, 1
  {
    ok := true;
    match (c.Decl(n), v)
    case (Struct(fields), Record(values)) => ok := EncodeStruct(c, fields, v, buf);
    case (Tagged(variants), Case(k, payload)) =>
      var b := WriteVar(W32, variants[k].id);
      buf.Extend(b);
      ok := EncodeValue(c, variants[k].payload, payload, buf);
    case (Repr(repr, form, discs), Unit(k)) => buf.Extend(EncodeDisc(repr, form, discs[k]));
  }

  method EncodeList(c: Codec, t: Type, v: Value, buf: Buffer) returns (ok: bool)
    requires v.Items? && TypedItems(Shape, c, t, v)
    modifies buf
    ensures ok <==> TypedItems(Writes, c, t, v)
    ensures ok ==> buf.data == old(buf.data) + EncodeItems(c, t, v, 0)
    decreases v, 0
  {
    hide Encode, Typed;
    for i := 0 to |v.items|
      invariant buf.data + EncodeItems(c, t, v, i) == old(buf.data) + EncodeItems(c, t, v, 0)
      invariant forall j :: 0 <= j < i ==> Typed(Writes, c, t, v.items[j])
    {
      var written := EncodeValue(c, t, v.items[i], buf);
      if !written {
        return false;
      }
    }
    ok := true;
  }

  method EncodeStruct(c: Codec, fields: seq<Field>, v: Value, buf: Buffer) returns (ok: bool)
    requires v.Record? && |v.fields| == |fields| && TypedFields(Shape, c, fields, v)
    modifies buf
    ensures ok <==> TypedFields(Writes, c, fields, v)
    ensures ok ==> buf.data == old(buf.data) + EncodeFields(c, fields, v, 0)
    decreases v, 0, 0
  {
    hide EncodeField, TypedField;
    for i := 0 to |fields|
      invariant buf.data + EncodeFields(c, fields, v, i) == old(buf.data) + EncodeFields(c, fields, v, 0)
      invariant forall j :: 0 <= j < i ==> TypedField(Writes, c, fields[j], v.fields[..j], v.fields[j])
    {
      var written := EncodeOne(c, fields[i], v.fields[..i], v.fields[i], buf);
      if !written {
        return false;
      }
    }
    ok := true;
  }

  method EncodeOne(c: Codec, f: Field, earlier: seq<Value>, v: Value, buf: Buffer) returns (ok: bool)
    requires TypedField(Shape, c, f, earlier, v)
    modifies buf
    ensures ok <==> TypedField(Writes, c, f, earlier, v)
    ensures ok ==> buf.data == old(buf.data) + EncodeField(c, f, v)
    decreases v, 2
  {
    match (f, v)
    case (Plain(t), _) => ok := EncodeValue(c, t, v, buf);
    case (FixedBytes(e, num), Data(data)) =>
      ok := Expected(c.overflow, num, e, Numbers(earlier)) == Some(|data|);
      if ok {
        buf.Extend(data);
      }
    case (FixedItems(e, num, elem, _), Items(items)) =>
      ok := Expected(c.overflow, num, e, Numbers(earlier)) == Some(|items|);
      if ok {
        ok := EncodeList(c, elem, v, buf);
      }
    case (Remaining, Data(data)) =>
      buf.Extend(data);
      ok := true;
  }

  // ---- decoding ----------------------------------------------------------------------

  /** `decoder.decode::<T>()`. */
  method DecodeCall(c: Codec, t: Type, d: Decoder) returns (r: Result<Value>)
    requires d.limits == c.limits && Bounded(c, d.View())
    modifies d
    ensures Same(r, d.View(), Call(c, t, old(d.View())))
    decreases c.limits.depth - d.depth, 0
  {
    hide With;
    if d.depth >= d.limits.depth {
      return Bad(LimitExceeded(DecodeDepth, d.depth + 1, d.limits.depth));
    }
    d.depth := d.depth + 1;
    r := DecodeWith(c, t, d);
    d.depth := d.depth - 1;
  }

  /** `T::decode_with`. */
  method DecodeWith(c: Codec, t: Type, d: Decoder) returns (r: Result<Value>)
    requires d.limits == c.limits && Bounded(c, d.View())
    modifies d
    ensures Same(r, d.View(), With(c, t, old(d.View())))
    decreases c.limits.depth - d.depth, 5
  {
    hide Call, Counted, TakeVar, TakeInt, TakeDisc, FindDisc, FindVariant, WithText, Fields;
    match t
    case Integer(i) =>
      var n := d.ReadInt(i);
      r := if n.Good? then Good(Num(n.value)) else Bad(n.error);
    case Boolean =>
      var b := d.TakeBytes(1);
      r := if b.Good? then Good(Flag(b.value[0] != 0)) else Bad(b.error);
    case Var(w) =>
      var n := d.ReadVarInt(w);
      r := if n.Good? then Good(Num(n.value)) else Bad(n.error);
    case Fixed(n) =>
      var b := d.TakeBytes(n);
      r := if b.Good? then Good(Data(b.value)) else Bad(b.error);
    case Text => r := DecodeText(c, d);
    case Vector(elem, size) =>
      var raw := DecodeVarInt(c, W32, d);
      if raw.Bad? {
        return Bad(raw.error);
      }
      var len := d.Length(raw.value, CollectionElements, d.limits.collection);
      if len.Bad? {
        return Bad(len.error);
      }
      r := DecodeCounted(c, elem, len.value, size, d);
    case Optional(elem) =>
      if d.depth >= d.limits.depth {
        return Bad(LimitExceeded(DecodeDepth, d.depth + 1, d.limits.depth));
      }
      var b := d.TakeBytes(1);
      if b.Bad? {
        return Bad(b.error);
      }
      if b.value[0] == 0 {
        return Good(Absent);
      }
      var inner := DecodeCall(c, elem, d);
      r := if inner.Good? then Good(Present(inner.value)) else Bad(inner.error);
    case Named(n) => {
      match c.Decl(n)
      case Struct(fields) => r := DecodeStruct(c, fields, d);
      case Tagged(variants) =>
        var id := DecodeVarInt(c, W32, d);
        if id.Bad? {
          return Bad(id.error);
        }
        match FindVariant(variants, id.value) {
          case None => r := Bad(InvalidPacketId(if 0 <= id.value < 256 then Some(id.value) else None));
          case Some(k) =>
            var inner := DecodeCall(c, variants[k].payload, d);
            r := if inner.Good? then Good(Case(k, inner.value)) else Bad(inner.error);
        }
      case Repr(repr, form, discs) =>
        if d.depth >= d.limits.depth {
          return Bad(LimitExceeded(DecodeDepth, d.depth + 1, d.limits.depth));
        }
        var x := DecodeDisc(repr, form, d);
        if x.Bad? {
          return Bad(x.error);
        }
        match FindDisc(discs, x.value)
        case None => r := Bad(InvalidPacketId(None));
        case Some(k) => r := Good(Unit(k));
    }
  }

  method DecodeVarInt(c: Codec, w: Width, d: Decoder) returns (r: Result<int>)
    requires d.limits == c.limits && Bounded(c, d.View())
    modifies d
    ensures Same(r, d.View(), Leaf(c, old(d.View()), TakeVar(w, old(d.View()))))
  {
    if d.depth >= d.limits.depth {
      return Bad(LimitExceeded(DecodeDepth, d.depth + 1, d.limits.depth));
    }
    r := d.ReadVarInt(w);
  }

  method DecodeDisc(repr: IntType, form: DiscForm, d: Decoder) returns (r: Result<int>)
    modifies d
    ensures Same(r, d.View(), TakeDisc(repr, form, old(d.View())))
  {
    match form
    case AsRepr => r := d.ReadInt(repr);
    case AsVarint(w) =>
      var x := d.ReadVarInt(w);
      r := if x.Good? then Good(repr.Wrap(x.value)) else Bad(x.error);
  }

  method DecodeText(c: Codec, d: Decoder) returns (r: Result<Value>)
    requires d.limits == c.limits && Bounded(c, d.View())
    modifies d
    ensures Same(r, d.View(), WithText(c, old(d.View())))
  {
    hide TakeVar;
    var raw := DecodeVarInt(c, W32, d);
    if raw.Bad? {
      return Bad(raw.error);
    }
    var len := d.Length(raw.value, StringBytes, d.limits.stringBytes);
    if len.Bad? {
      return Bad(len.error);
    }
    var charged := d.ChargeForAllocation(len.value);
    if charged.Bad? {
      return Bad(charged.error);
    }
    var b := d.TakeBytes(len.value);
    if b.Bad? {
      return Bad(b.error);
    }
    if !c.utf8(b.value) {
      return Bad(InvalidLength);
    }
    return Good(Data(b.value));
  }

  /** The charges of a vector, then `len` calls. */
  method DecodeCounted(c: Codec, elem: Type, len: nat, size: nat, d: Decoder) returns (r: Result<Value>)
    requires d.limits == c.limits && Bounded(c, d.View())
    modifies d
    ensures Same(r, d.View(), Counted(c, elem, len, size, old(d.View())))
    decreases c.limits.depth - d.depth, 2
  {
    hide List;
    var elements := d.ChargeForElements(len);
    if elements.Bad? {
      return Bad(elements.error);
    }
    var amount := d.ChargeForAllocation(len * size);
    if amount.Bad? {
      return Bad(amount.error);
    }
    var items := DecodeList(c, elem, len, d);
    r := if items.Good? then Good(Items(items.value)) else Bad(items.error);
  }

  /** Decoding n items from s amounts to `values` and then the items still to come. */
  ghost predicate Continues(c: Codec, t: Type, n: nat, s: Input, values: seq<Value>, now: Input)
    requires Bounded(c, s) && Bounded(c, now) && |values| <= n
  {
    var (all, rest) := (List(c, t, n, s), List(c, t, n - |values|, now));
    && all.next == rest.next
    && (if rest.Ok? then all.Ok? && all.value == values + rest.value else all == Err(rest.error, rest.next))
  }

  lemma ContinuesStart(c: Codec, t: Type, n: nat, s: Input)
    requires Bounded(c, s)
    ensures Continues(c, t, n, s, [], s)
  {
    hide List;
    assert List(c, t, n, s).Ok? ==> [] + List(c, t, n, s).value == List(c, t, n, s).value;
  }

  lemma ContinuesStep(c: Codec, t: Type, n: nat, s: Input, values: seq<Value>, now: Input)
    requires Bounded(c, s) && Bounded(c, now) && |values| < n && Continues(c, t, n, s, values, now)
    ensures var item := Call(c, t, now);
            if item.Ok? then Continues(c, t, n, s, values + [item.value], item.next)
            else List(c, t, n, s) == Err(item.error, item.next)
  {
    hide List, Call;
    var item := Call(c, t, now);
    ListUnfolds(c, t, n - |values|, now);
    if item.Ok? {
      var tail := List(c, t, n - |values| - 1, item.next);
      if tail.Ok? { Regroup(values, [item.value], tail.value); }
    }
  }

  lemma ListUnfolds(c: Codec, t: Type, n: nat, s: Input)
    requires Bounded(c, s) && n > 0
    ensures var (all, item) := (List(c, t, n, s), Call(c, t, s));
            if item.Err? then all == Err(item.error, item.next)
            else var rest := List(c, t, n - 1, item.next);
                 all == if rest.Ok? then Ok([item.value] + rest.value, rest.next) else Err(rest.error, rest.next)
  {
    hide Call;
  }

  lemma ContinuesEnd(c: Codec, t: Type, n: nat, s: Input, values: seq<Value>, now: Input)
    requires Bounded(c, s) && Bounded(c, now) && |values| == n && Continues(c, t, n, s, values, now)
    ensures List(c, t, n, s) == Ok(values, now)
  {
    assert values + [] == values;
  }

  method DecodeList(c: Codec, t: Type, n: nat, d: Decoder) returns (r: Result<seq<Value>>)
    requires d.limits == c.limits && Bounded(c, d.View())
    modifies d
    ensures Same(r, d.View(), List(c, t, n, old(d.View())))
    decreases c.limits.depth - d.depth, 1
  {
    hide Call, List, Continues;
    ghost var s := d.View();
    var values: seq<Value> := [];
    ContinuesStart(c, t, n, s);
    for i := 0 to n
      invariant d.limits == c.limits && Bounded(c, d.View()) && d.depth == old(d.depth) && |values| == i
      invariant Continues(c, t, n, s, values, d.View())
    {
      ContinuesStep(c, t, n, s, values, d.View());
      var item := DecodeCall(c, t, d);
      if item.Bad? {
        return Bad(item.error);
      }
      values := values + [item.value];
    }
    ContinuesEnd(c, t, n, s, values, d.View());
    r := Good(values);
  }

  method DecodeStruct(c: Codec, fields: seq<Field>, d: Decoder) returns (r: Result<Value>)
    requires d.limits == c.limits && Bounded(c, d.View())
    modifies d
    ensures match Fields(c, fields, [], old(d.View()))
            case Ok(values, next) => d.View() == next && r == Good(Record(values))
            case Err(e, next) => d.View() == next && r == Bad(e)
    decreases c.limits.depth - d.depth, 4
  {
    hide OneField;
    ghost var s := d.View();
    var values: seq<Value> := [];
    for i := 0 to |fields|
      invariant d.limits == c.limits && Bounded(c, d.View()) && d.depth == old(d.depth) && |values| == i
      invariant Fields(c, fields, [], s) == Fields(c, fields, values, d.View())
    {
      var value := DecodeField(c, fields[i], values, d);
      if value.Bad? {
        return Bad(value.error);
      }
      values := values + [value.value];
    }
    r := Good(Record(values));
  }

  method DecodeField(c: Codec, f: Field, done: seq<Value>, d: Decoder) returns (r: Result<Value>)
    requires d.limits == c.limits && Bounded(c, d.View())
    modifies d
    ensures Same(r, d.View(), OneField(c, f, done, old(d.View())))
    decreases c.limits.depth - d.depth, 3
  {
    hide Call, Counted, Checked, Numbers;
    match f
    case Plain(t) => r := DecodeCall(c, t, d);
    case FixedBytes(e, _) =>
      var len := Checked(e, Numbers(done));
      if len.None? {
        return Bad(InvalidLength);
      }
      r := DecodeFixedBytes(c, len.value, d);
    case FixedItems(e, _, elem, size) =>
      var len := Checked(e, Numbers(done));
      if len.None? {
        return Bad(InvalidLength);
      }
      r := DecodeCounted(c, elem, len.value, size, d);
    case Remaining => r := DecodeRemaining(c, d);
  }

  method DecodeFixedBytes(c: Codec, len: nat, d: Decoder) returns (r: Result<Value>)
    requires d.limits == c.limits
    modifies d
    ensures Same(r, d.View(), ExactBytes(c, len, old(d.View())))
  {
    var elements := d.ChargeForElements(len);
    if elements.Bad? {
      return Bad(elements.error);
    }
    var amount := d.ChargeForAllocation(len);
    if amount.Bad? {
      return Bad(amount.error);
    }
    var b := d.TakeBytes(len);
    r := if b.Good? then Good(Data(b.value)) else Bad(b.error);
  }

  method DecodeRemaining(c: Codec, d: Decoder) returns (r: Result<Value>)
    requires d.limits == c.limits
    modifies d
    ensures Same(r, d.View(), AllTheRest(c, old(d.View())))
  {
    var len := |d.remaining|;
    if len > d.limits.remaining {
      return Bad(LimitExceeded(RemainingBytes, len, d.limits.remaining));
    }
    var amount := d.ChargeForAllocation(len);
    if amount.Bad? {
      return Bad(amount.error);
    }
    assert d.remaining[..len] == d.remaining && d.remaining[len..] == [];
    var b := d.TakeBytes(len);
    match b
    case Good(data) => r := Good(Data(data));
    case Bad(e) => r := Bad(e);
  }
}
