/** What the Encode and Decode derives of void-codec-macros generate, as an
    interpreter over schemas, together with the primitives and containers of
    void-codec/src/primitives.

    Named declarations may refer to each other and to themselves. Decoding always
    ends because of the depth limit. */
module Schema {
  import opened Options
  import opened VarInt
  import opened Wire
  import opened Lengths

  /** `size` is the size in memory of an element. */
  datatype Type =
    | Integer(t: IntType)
    | Boolean
    | Var(w: Width)
    | Fixed(n: nat)
    | Text
    | Vector(elem: Type, size: nat)
    | Optional(elem: Type)
    | Named(n: nat)

  /** `num` is the integer type of the fields a length names. */
  datatype Field =
    | Plain(ty: Type)
    | FixedBytes(len: Expr, num: IntType)
    | FixedItems(len: Expr, num: IntType, elem: Type, size: nat)
    | Remaining

  type packet_id = x: int | W32.Signed(x)

  datatype Variant = Variant(id: packet_id, payload: Type)

  /** How a repr enum writes its discriminant. */
  datatype DiscForm = AsRepr | AsVarint(w: Width)

  datatype Decl =
    | Struct(fields: seq<Field>)
    | Tagged(variants: seq<Variant>)
    | Repr(repr: IntType, form: DiscForm, discs: seq<int>)

  datatype Codec = Codec(decls: seq<Decl>, utf8: bytes -> bool, limits: Limits, overflow: Overflow)
  {
    function Decl(n: nat): Decl {
      if n < |decls| then decls[n] else Struct([])
    }
  }

  datatype Value =
    | Num(n: int)
    | Flag(b: bool)
    | Data(data: bytes)
    | Items(items: seq<Value>)
    | Absent
    | Present(inner: Value)
    | Record(fields: seq<Value>)
    | Case(k: nat, payload: Value)
    | Unit(k: nat)

  /** The fields a length expression can name, as numbers. */
  function Numbers(values: seq<Value>): (r: seq<int>)
    ensures |r| == |values|
  {
    seq(|values|, i requires 0 <= i < |values| => if values[i].Num? then values[i].n else -1)
  }

  // ---- which values a type has -------------------------------------------------------

  /** What is asked of a vector whose length stands elsewhere, besides its shape: to
      have the length the decoder computes; the one the encoder checks, without which it
      panics; or the one the expression stands for in both. */
  datatype Side = Shape | Reads | Writes | Tames

  predicate LengthIs(side: Side, overflow: Overflow, e: Expr, num: IntType, env: seq<int>, n: nat) {
    match side
    case Shape => Bound(num, e, env)
    case Reads => Checked(e, env) == Some(n)
    case Writes => Bound(num, e, env) && Expected(overflow, num, e, env) == Some(n)
    case Tames => Bound(num, e, env) && Length(num, e, env) == Some(n)
  }

  /** `expected_len` of the encoder; `None` is a panic. */
  function Expected(overflow: Overflow, num: IntType, e: Expr, env: seq<int>): Option<nat>
    requires Bound(num, e, env)
  {
    var x := Native(overflow, num, e, env);
    if x.None? then None else Some(AsUsize(x.value))
  }

  /** The decoder only takes lengths that fit their 32-bit prefix. */
  predicate PrefixFits(side: Side, n: nat) {
    side.Shape? || side.Writes? || n <= I32_MAX
  }

  ghost predicate Typed(side: Side, c: Codec, t: Type, v: Value)
    decreases v, 1
  {
    match t
    case Integer(i) => v.Num? && i.InRange(v.n)
    case Boolean => v.Flag?
    case Var(w) => v.Num? && w.Signed(v.n)
    case Fixed(n) => v.Data? && |v.data| == n
    case Text => v.Data? && PrefixFits(side, |v.data|) && c.utf8(v.data)
    case Vector(elem, _) => v.Items? && PrefixFits(side, |v.items|) && TypedItems(side, c, elem, v)
    case Optional(elem) => v.Absent? || (v.Present? && Typed(side, c, elem, v.inner))
    case Named(n) =>
      match c.Decl(n)
      case Struct(fields) => v.Record? && |v.fields| == |fields| && TypedFields(side, c, fields, v)
      case Tagged(variants) => v.Case? && v.k < |variants| && Typed(side, c, variants[v.k].payload, v.payload)
      case Repr(_, _, discs) => v.Unit? && v.k < |discs|
  }

  ghost predicate TypedItems(side: Side, c: Codec, t: Type, v: Value)
    requires v.Items?
    decreases v, 0
  {
    forall i :: 0 <= i < |v.items| ==> Typed(side, c, t, v.items[i])
  }

  ghost predicate TypedFields(side: Side, c: Codec, fields: seq<Field>, v: Value)
    requires v.Record? && |v.fields| == |fields|
    decreases v, 0
  {
    forall i :: 0 <= i < |fields| ==> TypedField(side, c, fields[i], v.fields[..i], v.fields[i])
  }

  ghost predicate TypedField(side: Side, c: Codec, f: Field, earlier: seq<Value>, v: Value)
    decreases v, 2
  {
    match f
    case Plain(t) => Typed(side, c, t, v)
    case FixedBytes(e, num) => v.Data? && LengthIs(side, c.overflow, e, num, Numbers(earlier), |v.data|)
    case FixedItems(e, num, elem, _) =>
      v.Items? && LengthIs(side, c.overflow, e, num, Numbers(earlier), |v.items|) && TypedItems(side, c, elem, v)
    case Remaining => v.Data?
  }

  // ---- encoding --------------------------------------------------------------------

  function DiscOf(repr: IntType, form: DiscForm, disc: int): int {
    match form
    case AsRepr => disc
    case AsVarint(W32) => I32.Wrap(disc)
    case AsVarint(W64) => I64.Wrap(disc)
  }

  function EncodeDisc(repr: IntType, form: DiscForm, disc: int): bytes {
    match form
    case AsRepr => EncodeInt(repr, disc)
    case AsVarint(W32) => EncodeVar(W32, I32.Wrap(disc))
    case AsVarint(W64) => EncodeVar(W64, I64.Wrap(disc))
  }

  function EncodeLength(n: nat): bytes {
    EncodeVar(W32, I32.Wrap(n))
  }

  function Encode(c: Codec, t: Type, v: Value): bytes
    decreases v, 1
  {
    match (t, v)
    case (Integer(i), Num(n)) => EncodeInt(i, n)
    case (Boolean, Flag(b)) => [if b then 1 else 0]
    case (Var(w), Num(n)) => if w.Signed(n) then EncodeVar(w, n) else []
    case (Fixed(_), Data(data)) => data
    case (Text, Data(data)) => EncodeLength(|data|) + data
    case (Vector(elem, _), Items(items)) => EncodeLength(|items|) + EncodeItems(c, elem, v, 0)
    case (Optional(_), Absent) => [0]
    case (Optional(elem), Present(inner)) => [1] + Encode(c, elem, inner)
    case (Named(n), _) =>
      (match (c.Decl(n), v)
       case (Struct(fields), Record(values)) => EncodeFields(c, fields, v, 0)
       case (Tagged(variants), Case(k, payload)) =>
         if k < |variants| then EncodeVar(W32, variants[k].id) + Encode(c, variants[k].payload, payload) else []
       case (Repr(repr, form, discs), Unit(k)) => if k < |discs| then EncodeDisc(repr, form, discs[k]) else []
       case _ => [])
    case _ => []
  }

  /** The items of v from i on. */
  function EncodeItems(c: Codec, t: Type, v: Value, i: nat): bytes
    requires v.Items? && i <= |v.items|
    decreases v, 0, |v.items| - i
  {
    if i == |v.items| then [] else Encode(c, t, v.items[i]) + EncodeItems(c, t, v, i + 1)
  }

  function EncodeFields(c: Codec, fields: seq<Field>, v: Value, i: nat): bytes
    requires v.Record?
    decreases v, 0, |fields| - i
  {
    if i >= |fields| || i >= |v.fields| then []
    else EncodeField(c, fields[i], v.fields[i]) + EncodeFields(c, fields, v, i + 1)
  }

  function EncodeField(c: Codec, f: Field, v: Value): bytes
    decreases v, 2
  {
    match (f, v)
    case (Plain(t), _) => Encode(c, t, v)
    case (FixedBytes(_, _), Data(data)) => data
    case (FixedItems(_, _, elem, _), Items(items)) => EncodeItems(c, elem, v, 0)
    case (Remaining, Data(data)) => data
    case _ => []
  }

  // ---- decoding --------------------------------------------------------------------

  function FindDisc(discs: seq<int>, d: int): (k: Option<nat>)
    ensures k.Some? ==> k.value < |discs| && discs[k.value] == d && forall j :: 0 <= j < k.value ==> discs[j] != d
    ensures k.None? ==> d !in discs
  {
    if discs == [] then None
    else if discs[0] == d then Some(0)
    else
      match FindDisc(discs[1..], d)
      case None => None
      case Some(k) => Some(k + 1)
  }

  function FindVariant(variants: seq<Variant>, id: int): (k: Option<nat>)
    ensures k.Some? ==> k.value < |variants| && variants[k.value].id == id
                        && forall j :: 0 <= j < k.value ==> variants[j].id != id
    ensures k.None? ==> forall j :: 0 <= j < |variants| ==> variants[j].id != id
  {
    if variants == [] then None
    else if variants[0].id == id then Some(0)
    else
      match FindVariant(variants[1..], id)
      case None => None
      case Some(k) => Some(k + 1)
  }

  function TakeDisc(repr: IntType, form: DiscForm, s: Input): Outcome<int> {
    match form
    case AsRepr => TakeInt(repr, s)
    case AsVarint(w) =>
      match TakeVar(w, s)
      case Err(e, next) => Err(e, next)
      case Ok(x, next) => Ok(repr.Wrap(x), next)
  }

  /** `decoder.decode::<T>()` for a T that takes no further steps down. */
  function Leaf<T>(c: Codec, s: Input, step: Outcome<T>): Outcome<T> {
    if s.depth >= c.limits.depth then Err(LimitExceeded(DecodeDepth, s.depth + 1, c.limits.depth), s) else step
  }

  predicate Bounded(c: Codec, s: Input) {
    s.depth <= c.limits.depth && s.elements <= c.limits.total && s.heap <= c.limits.allocation
  }

  /** `decoder.decode::<T>()`: one level down, and back up whatever the outcome. */
  function Call(c: Codec, t: Type, s: Input): (r: Outcome<Value>)
    requires Bounded(c, s)
    ensures Bounded(c, r.next) && r.next.depth == s.depth
    decreases c.limits.depth - s.depth, 0
  {
    if s.depth >= c.limits.depth then Err(LimitExceeded(DecodeDepth, s.depth + 1, c.limits.depth), s)
    else
      match With(c, t, s.(depth := s.depth + 1))
      case Ok(v, next) => Ok(v, next.(depth := next.depth - 1))
      case Err(e, next) => Err(e, next.(depth := next.depth - 1))
  }

  /** `T::decode_with`. */
  function With(c: Codec, t: Type, s: Input): (r: Outcome<Value>)
    requires Bounded(c, s)
    ensures Bounded(c, r.next) && r.next.depth == s.depth
    decreases c.limits.depth - s.depth, 5
  {
    match t
    case Integer(i) => (match TakeInt(i, s)
                        case Ok(n, next) => Ok(Num(n), next)
                        case Err(e, next) => Err(e, next))
    case Boolean => (match Take(s, 1)
                     case Ok(b, next) => Ok(Flag(b[0] != 0), next)
                     case Err(e, next) => Err(e, next))
    case Var(w) => (match TakeVar(w, s)
                    case Ok(n, next) => Ok(Num(n), next)
                    case Err(e, next) => Err(e, next))
    case Fixed(n) => (match Take(s, n)
                      case Ok(b, next) => Ok(Data(b), next)
                      case Err(e, next) => Err(e, next))
    case Text => WithText(c, s)
    case Vector(elem, size) =>
      (match Leaf(c, s, TakeVar(W32, s))
       case Err(e, next) => Err(e, next)
       case Ok(raw, s1) =>
         match CheckedLen(raw, CollectionElements, c.limits.collection, s1)
         case Err(e, next) => Err(e, next)
         case Ok(len, s2) => Counted(c, elem, len, size, s2))
    case Optional(elem) =>
      (match Leaf(c, s, Take(s, 1))
       case Err(e, next) => Err(e, next)
       case Ok(b, s1) =>
         if b[0] == 0 then Ok(Absent, s1)
         else
           match Call(c, elem, s1)
           case Ok(v, next) => Ok(Present(v), next)
           case Err(e, next) => Err(e, next))
    case Named(n) =>
      match c.Decl(n)
      case Struct(fields) =>
        (match Fields(c, fields, [], s)
         case Ok(values, next) => Ok(Record(values), next)
         case Err(e, next) => Err(e, next))
      case Tagged(variants) =>
        (match Leaf(c, s, TakeVar(W32, s))
         case Err(e, next) => Err(e, next)
         case Ok(id, s1) =>
           match FindVariant(variants, id)
           case None => Err(InvalidPacketId(if 0 <= id < 256 then Some(id) else None), s1)
           case Some(k) =>
             match Call(c, variants[k].payload, s1)
             case Ok(v, next) => Ok(Case(k, v), next)
             case Err(e, next) => Err(e, next))
      case Repr(repr, form, discs) =>
        match Leaf(c, s, TakeDisc(repr, form, s))
        case Err(e, next) => Err(e, next)
        case Ok(d, s1) =>
          match FindDisc(discs, d)
          case None => Err(InvalidPacketId(None), s1)
          case Some(k) => Ok(Unit(k), s1)
  }

  function WithText(c: Codec, s: Input): Outcome<Value> {
    match Leaf(c, s, TakeVar(W32, s))
    case Err(e, next) => Err(e, next)
    case Ok(raw, s1) =>
      match CheckedLen(raw, StringBytes, c.limits.stringBytes, s1)
      case Err(e, next) => Err(e, next)
      case Ok(len, s2) =>
        match ChargeAllocation(c.limits, s2, len)
        case Err(e, next) => Err(e, next)
        case Ok(_, s3) =>
          match Take(s3, len)
          case Err(e, next) => Err(e, next)
          case Ok(b, s4) => if c.utf8(b) then Ok(Data(b), s4) else Err(InvalidLength, s4)
  }

  /** Both charges of a vector of known length, then its elements. */
  function Counted(c: Codec, elem: Type, len: nat, size: nat, s: Input): (r: Outcome<Value>)
    requires Bounded(c, s)
    ensures Bounded(c, r.next) && r.next.depth == s.depth
    decreases c.limits.depth - s.depth, 2
  {
    match ChargeElements(c.limits, s, len)
    case Err(e, next) => Err(e, next)
    case Ok(_, s1) =>
      match ChargeAllocation(c.limits, s1, len * size)
      case Err(e, next) => Err(e, next)
      case Ok(_, s2) =>
        match List(c, elem, len, s2)
        case Ok(values, next) => Ok(Items(values), next)
        case Err(e, next) => Err(e, next)
  }

  function List(c: Codec, t: Type, n: nat, s: Input): (r: Outcome<seq<Value>>)
    requires Bounded(c, s)
    ensures Bounded(c, r.next) && r.next.depth == s.depth
    ensures r.Ok? ==> |r.value| == n
    decreases c.limits.depth - s.depth, 1, n
  {
    if n == 0 then Ok([], s)
    else
      match Call(c, t, s)
      case Err(e, next) => Err(e, next)
      case Ok(v, s1) =>
        match List(c, t, n - 1, s1)
        case Err(e, next) => Err(e, next)
        case Ok(rest, next) => Ok([v] + rest, next)
  }

  /** The fields after those already decoded. */
  function Fields(c: Codec, fields: seq<Field>, done: seq<Value>, s: Input): (r: Outcome<seq<Value>>)
    requires Bounded(c, s) && |done| <= |fields|
    ensures Bounded(c, r.next) && r.next.depth == s.depth
    ensures r.Ok? ==> |r.value| == |fields| && done <= r.value
    decreases c.limits.depth - s.depth, 4, |fields| - |done|
  {
    if |done| == |fields| then Ok(done, s)
    else
      match OneField(c, fields[|done|], done, s)
      case Err(e, next) => Err(e, next)
      case Ok(v, s1) => Fields(c, fields, done + [v], s1)
  }

  function OneField(c: Codec, f: Field, done: seq<Value>, s: Input): (r: Outcome<Value>)
    requires Bounded(c, s)
    ensures Bounded(c, r.next) && r.next.depth == s.depth
    decreases c.limits.depth - s.depth, 3
  {
    match f
    case Plain(t) => Call(c, t, s)
    case FixedBytes(e, _) =>
      (match Checked(e, Numbers(done))
       case None => Err(InvalidLength, s)
       case Some(len) => ExactBytes(c, len, s))
    case FixedItems(e, _, elem, size) =>
      (match Checked(e, Numbers(done))
       case None => Err(InvalidLength, s)
       case Some(len) => Counted(c, elem, len, size, s))
    case Remaining => AllTheRest(c, s)
  }

  function ExactBytes(c: Codec, len: nat, s: Input): Outcome<Value> {
    match ChargeElements(c.limits, s, len)
    case Err(e, next) => Err(e, next)
    case Ok(_, s1) =>
      match ChargeAllocation(c.limits, s1, len)
      case Err(e, next) => Err(e, next)
      case Ok(_, s2) =>
        match Take(s2, len)
        case Ok(b, next) => Ok(Data(b), next)
        case Err(e, next) => Err(e, next)
  }

  function AllTheRest(c: Codec, s: Input): Outcome<Value> {
    var len := |s.rest|;
    if len > c.limits.remaining then Err(LimitExceeded(RemainingBytes, len, c.limits.remaining), s)
    else
      match ChargeAllocation(c.limits, s, len)
      case Err(e, next) => Err(e, next)
      case Ok(_, s1) => Ok(Data(s1.rest), s1.(rest := []))
  }

  /** `decode_exact`: the value and nothing after it. */
  function DecodeExact(c: Codec, t: Type, input: bytes): Outcome<Value> {
    match Call(c, t, Input(input, 0, 0, 0))
    case Err(e, next) => Err(e, next)
    case Ok(v, next) => if next.rest == [] then Ok(v, next) else Err(TrailingData(|next.rest|), next)
  }
}
