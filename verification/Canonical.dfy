/** Among all the bytes that decode to a value, those the encoder writes are the least. */
module Canonical {
  import opened VarInt
  import opened Wire
  import opened Lengths
  import opened Schema
  import opened SchemaLaws
  import opened SchemaInputs

  /** Reading `input` down to `rest` took at least as many bytes as e has, and if as many,
      none of them smaller than that of e. */
  ghost predicate Least(e: bytes, input: bytes, rest: bytes) {
    var n := |input| - |rest|;
    && Suffix(rest, input) && |e| <= n
    && (|e| == n ==> forall i :: 0 <= i < n ==> e[i] <= input[i])
  }

  lemma LeastChain(e: bytes, f: bytes, input: bytes, mid: bytes, rest: bytes)
    requires Least(e, input, mid) && Least(f, mid, rest)
    ensures Least(e + f, input, rest)
  {
    SuffixChain(rest, mid, input);
    var (m, n) := (|input| - |mid|, |input| - |rest|);
    if |e + f| == n {
      forall i | 0 <= i < n ensures (e + f)[i] <= input[i] {
        if i >= m { assert f[i - m] <= mid[i - m] == input[m..][i - m]; }
      }
    }
  }

  lemma NothingIsLeast(input: bytes)
    ensures Least([], input, input)
  {}

  lemma TakenIsLeast(input: bytes, n: nat)
    requires n <= |input|
    ensures Least(input[..n], input, input[n..])
  {}

  // ---- numbers ------------------------------------------------------------------------

  lemma {:induction false} BytesBack(b: bytes)
    ensures BigEndian(|b|, FromBigEndian(b)) == b && FromBigEndian(b) < Pow256(|b|)
  {
    if b != [] {
      BytesBack(b[..|b| - 1]);
      assert b == b[..|b| - 1] + [b[|b| - 1]];
    }
  }

  lemma Below8(u: nat)
    requires u < 0x100
    ensures (u - 0x100) % 0x100 == u
  {}

  lemma Below16(u: nat)
    requires u < 0x1_0000
    ensures (u - 0x1_0000) % 0x1_0000 == u
  {}

  lemma Below32(u: nat)
    requires u < 0x1_0000_0000
    ensures (u - 0x1_0000_0000) % 0x1_0000_0000 == u
  {}

  lemma Below64(u: nat)
    requires u < 0x1_0000_0000_0000_0000
    ensures (u - 0x1_0000_0000_0000_0000) % 0x1_0000_0000_0000_0000 == u
  {}

  lemma UnwrapInRange(t: IntType, u: nat)
    requires u < t.Modulus()
    ensures t.Wrap(u) % t.Modulus() == u
  {
    assert u % t.Modulus() == u;
    assert t.Wrap(u) == u || t.Wrap(u) == u - t.Modulus();
    hide IntType.Wrap;
    match t
    case U8 => Below8(u);
    case I8 => Below8(u);
    case U16 => Below16(u);
    case I16 => Below16(u);
    case U32 => Below32(u);
    case I32 => Below32(u);
    case U64 => Below64(u);
    case I64 => Below64(u);
  }

  lemma IntIsLeast(t: IntType, s: Input)
    ensures var r := TakeInt(t, s); r.Ok? ==> Least(EncodeInt(t, r.value), s.rest, r.next.rest)
  {
    if t.Bytes() <= |s.rest| {
      var b := s.rest[..t.Bytes()];
      BytesBack(b);
      Powers(t);
      UnwrapInRange(t, FromBigEndian(b));
      TakenIsLeast(s.rest, t.Bytes());
    }
    hide BigEndian, FromBigEndian, IntType.Modulus;
  }

  lemma VarIsLeast(w: Width, s: Input)
    ensures var r := TakeVar(w, s); r.Ok? ==> w.Signed(r.value) && Least(EncodeVar(w, r.value), s.rest, r.next.rest)
  {
    VarFits(w, s.rest);
    var reading := ReadVar(w, s.rest);
    if reading.Value? {
      VarInt.EncoderIsCanonical(w, s.rest);
      TakenIsLeast(s.rest, reading.used);
    }
    hide ReadVar, EncodeVar, Width.Modulus;
  }

  lemma LengthIsLeast(s: Input, limit: usize)
    ensures var raw := TakeVar(W32, s);
            raw.Ok? && 0 <= raw.value <= limit ==> Least(EncodeLength(raw.value), s.rest, raw.next.rest)
  {
    VarIsLeast(W32, s);
    hide TakeVar, EncodeVar;
  }

  // ---- discriminants --------------------------------------------------------------------

  lemma {:induction false} LongerIsLarger(a: nat, b: nat)
    requires a <= b
    ensures |Encoded(a)| <= |Encoded(b)|
  {
    if a >= 128 { LongerIsLarger(a / 128, b / 128); }
  }

  /** A power of two, seven bits at a time. */
  predicate Septets(m: nat) {
    0 < m && (m < 128 || (m % 128 == 0 && Septets(m / 128)))
  }

  /** The remainder is the least of all numbers with that remainder, byte by byte. */
  lemma {:induction false} RemainderIsLeast(a: nat, k: nat, m: nat)
    requires Septets(m) && a < m && |Encoded(a)| == |Encoded(a + k * m)|
    ensures forall i :: 0 <= i < |Encoded(a)| ==> Encoded(a)[i] <= Encoded(a + k * m)[i]
    decreases m
  {
    var b := a + k * m;
    Multiple(k, m);
    if m >= 128 {
      var n := m / 128;
      assert m == 128 * n;
      Scaled(k, n);
      assert b == a + 128 * (k * n);
      assert b % 128 == a % 128 && b / 128 == a / 128 + k * n;
      if a >= 128 { RemainderIsLeast(a / 128, k, n); }
    }
  }

  lemma Multiple(k: nat, m: nat)
    ensures k * m >= 0
  {}

  lemma Scaled(k: nat, n: nat)
    ensures k * (128 * n) == 128 * (k * n) && k * n >= 0
  {}

  function Native(w: Width): IntType {
    match w
    case W32 => I32
    case W64 => I64
  }

  /** The discriminant is not negative where the decoder cuts a wider number down to it. */
  predicate Upright(repr: IntType, form: DiscForm, disc: int) {
    form.AsVarint? && disc < 0 ==> repr.Modulus() >= form.w.Modulus()
  }

  lemma WideDisc(repr: IntType, w: Width, x: int)
    requires w.Signed(x) && repr.Modulus() >= w.Modulus()
    ensures Native(w).Wrap(repr.Wrap(x)) == x
  {
    WrapInRange(Native(w), x);
    WrapOfMod(Native(w), x);
    if repr.IsSigned() || x >= 0 {
      WrapInRange(repr, x);
    } else if w.W32? && repr.U64? {
      Narrowed(x);
    }
    hide IntType.InRange;
  }

  lemma Narrowed(x: int)
    requires -0x8000_0000 <= x < 0
    ensures U64.Wrap(x) == x + 0x1_0000_0000_0000_0000
    ensures I32.Wrap(x + 0x1_0000_0000_0000_0000) == x
  {
    assert x % 0x1_0000_0000_0000_0000 == x + 0x1_0000_0000_0000_0000;
    assert (x + 0x1_0000_0000_0000_0000) % 0x1_0000_0000 == x + 0x1_0000_0000;
  }

  lemma Distributed(a: int, b: int, m: int)
    ensures (a + b) * m == a * m + b * m
  {}

  lemma NotBelow(k: int, m: nat, d: nat)
    requires k * m + d >= 0 && d < m
    ensures k >= 0
  {
    if k < 0 {
      Multiple(-k - 1, m);
      Distributed(-k - 1, 1, m);
      Distributed(k, -k, m);
    }
  }

  lemma TimesNative(repr: IntType, w: Width) returns (n: nat)
    requires repr.Modulus() < w.Modulus()
    ensures w.Modulus() == n * repr.Modulus()
  {
    n := w.Modulus() / repr.Modulus();
  }

  lemma NarrowDisc(repr: IntType, w: Width, x: int) returns (k: nat)
    requires w.Signed(x) && repr.Modulus() < w.Modulus() && repr.Wrap(x) >= 0
    ensures var d := repr.Wrap(x); d < repr.Modulus() && Native(w).Wrap(d) == d && w.Pattern(d) == d
    ensures w.Pattern(x) == repr.Wrap(x) + k * repr.Modulus()
  {
    var (d, m, q) := (repr.Wrap(x), repr.Modulus(), x / repr.Modulus());
    assert x == q * m + d;
    var n := TimesNative(repr, w);
    Distributed(q, n, m);
    var all := if x < 0 then q + n else q;
    assert w.Pattern(x) == all * m + d;
    NotBelow(all, m, d);
    k := all;
    NativeStays(repr, w, d);
    hide IntType.Modulus, Width.Modulus, IntType.Wrap;
  }

  lemma NativeStays(repr: IntType, w: Width, d: int)
    requires repr.Modulus() < w.Modulus() && repr.InRange(d)
    ensures Native(w).Wrap(d) == d && w.Signed(d) && (d >= 0 ==> w.Pattern(d) == d && d < repr.Modulus())
  {
    assert Native(w).InRange(d);
    WrapInRange(Native(w), d);
  }

  lemma SeptetsOf(repr: IntType)
    ensures Septets(repr.Modulus())
  {
    assert Septets(2) && Septets(4) && Septets(16) && Septets(2 * 128);
    assert 512 / 128 == 4 && Septets(512) && Septets(0x1_0000);
    assert Septets(16 * 128) && Septets(16 * 128 * 128) && Septets(16 * 128 * 128 * 128) && Septets(0x1_0000_0000);
    assert Septets(2 * 128 * 128);
    assert Septets(0x1_0000_0000_0000_0000 / 128 / 128 / 128 / 128 / 128 / 128 / 128 / 128 / 128);
    assert Septets(0x1_0000_0000_0000_0000 / 128 / 128 / 128 / 128 / 128 / 128 / 128 / 128);
    assert Septets(0x1_0000_0000_0000_0000 / 128 / 128 / 128 / 128 / 128 / 128 / 128);
    assert Septets(0x1_0000_0000_0000_0000 / 128 / 128 / 128 / 128 / 128 / 128);
    assert Septets(0x1_0000_0000_0000_0000 / 128 / 128 / 128 / 128 / 128);
    assert Septets(0x1_0000_0000_0000_0000 / 128 / 128 / 128 / 128);
    assert Septets(0x1_0000_0000_0000_0000 / 128 / 128 / 128);
    assert Septets(0x1_0000_0000_0000_0000 / 128 / 128);
    assert Septets(0x1_0000_0000_0000_0000 / 128);
  }

  lemma DiscIsLeast(repr: IntType, form: DiscForm, s: Input)
    requires TakeDisc(repr, form, s).Ok? && Upright(repr, form, TakeDisc(repr, form, s).value)
    ensures var r := TakeDisc(repr, form, s); Least(EncodeDisc(repr, form, r.value), s.rest, r.next.rest)
  {
    if form.AsRepr? {
      IntIsLeast(repr, s);
    } else {
      var (w, x, rest) := (form.w, TakeVar(form.w, s).value, TakeVar(form.w, s).next.rest);
      VarIsLeast(w, s);
      if repr.Modulus() >= w.Modulus() {
        WideDisc(repr, w, x);
      } else {
        var k := NarrowDisc(repr, w, x);
        var d := repr.Wrap(x);
        LongerIsLarger(d, w.Pattern(x));
        SeptetsOf(repr);
        if |Encoded(d)| == |Encoded(w.Pattern(x))| { RemainderIsLeast(d, k, repr.Modulus()); }
        SmallerIsLeast(Encoded(d), EncodeVar(w, x), s.rest, rest);
      }
    }
    hide TakeVar, Least, EncodeInt;
  }

  lemma SmallerIsLeast(d: bytes, e: bytes, input: bytes, rest: bytes)
    requires Least(e, input, rest) && |d| <= |e|
    requires |d| == |e| ==> forall i :: 0 <= i < |d| ==> d[i] <= e[i]
    ensures Least(d, input, rest)
  {}

  lemma {:induction false} LengthUpTo(value: nat, n: nat)
    requires n > 0 && value < Shift(n)
    ensures |Encoded(value)| <= n
  {
    if value >= 128 { LengthUpTo(value / 128, n - 1); }
  }

  lemma {:induction false} LengthFrom(value: nat, n: nat)
    requires value >= Shift(n)
    ensures |Encoded(value)| > n
  {
    if n > 0 { LengthFrom(value / 128, n - 1); }
  }

  lemma Shifted128()
    ensures Shift(3) == 0x20_0000 && Shift(4) == 0x1000_0000 && Shift(5) == 0x8_0000_0000 && Shift(9) == 0x8000_0000_0000_0000
  {
    assert Shift(1) == 128 && Shift(2) == 128 * Shift(1) && Shift(3) == 128 * Shift(2) && Shift(4) == 128 * Shift(3);
    assert Shift(5) == 128 * Shift(4) && Shift(6) == 128 * Shift(5) && Shift(7) == 128 * Shift(6);
    assert Shift(8) == 128 * Shift(7) && Shift(9) == 128 * Shift(8);
  }

  /** A negative discriminant, written as a wider number, could be written shorter: the
      decoder takes its remainder for it as well. */
  lemma CrookedIsLonger(repr: IntType, w: Width, disc: int) returns (input: bytes)
    requires repr.InRange(disc) && !Upright(repr, AsVarint(w), disc)
    ensures TakeDisc(repr, AsVarint(w), Input(input, 0, 0, 0)) == Ok(disc, Input([], 0, 0, 0))
    ensures |input| < |EncodeDisc(repr, AsVarint(w), disc)|
  {
    var x := disc + repr.Modulus();
    NativeStays(repr, w, disc);
    LengthsOf(repr, w, disc);
    CutBack(repr, disc);
    input := EncodeVar(w, x);
    TakeVarEncoded(w, x, Input(input, 0, 0, 0), []);
    assert input + [] == input;
    hide Encoded, TakeVar, IntType.Modulus, IntType.Wrap, Width.Modulus;
  }

  lemma CutBack(repr: IntType, disc: int)
    requires repr.InRange(disc) && disc < 0
    ensures repr.Wrap(disc + repr.Modulus()) == disc
  {}

  lemma LengthsOf(repr: IntType, w: Width, disc: int)
    requires repr.InRange(disc) && disc < 0 && repr.Modulus() < w.Modulus()
    ensures w.Signed(disc) && w.Signed(disc + repr.Modulus())
    ensures |EncodeVar(w, disc + repr.Modulus())| < |EncodeVar(w, disc)|
  {
    Shifted128();
    hide Shift, Encoded;
    LengthUpTo(disc + repr.Modulus(), if w.W32? then 3 else 5);
    LengthFrom(w.Pattern(disc), if w.W32? then 4 else 9);
  }

  // ---- every type -----------------------------------------------------------------------

  ghost predicate Straight(c: Codec) {
    forall n: nat :: n < |c.decls| ==> StraightDecl(c.decls[n])
  }

  ghost predicate StraightDecl(d: Decl) {
    d.Repr? ==> forall k :: 0 <= k < |d.discs| ==> Upright(d.repr, d.form, d.discs[k])
  }

  ghost predicate LeastOut(c: Codec, t: Type, s: Input, r: Outcome<Value>) {
    r.Ok? ==> Least(Encode(c, t, r.value), s.rest, r.next.rest)
  }

  lemma {:induction false} CallIsLeast(c: Codec, t: Type, s: Input)
    requires Bounded(c, s) && Straight(c)
    ensures LeastOut(c, t, s, Call(c, t, s))
    decreases c.limits.depth - s.depth, 0
  {
    hide With, Encode, Least;
    if s.depth < c.limits.depth {
      WithIsLeast(c, t, s.(depth := s.depth + 1));
    }
  }

  lemma {:induction false} WithIsLeast(c: Codec, t: Type, s: Input)
    requires Bounded(c, s) && Straight(c)
    ensures LeastOut(c, t, s, With(c, t, s))
    decreases c.limits.depth - s.depth, 5
  {
    hide With, LeastOut;
    match t
    case Vector(elem, size) => VectorIsLeast(c, elem, size, s);
    case Optional(elem) => OptionalIsLeast(c, elem, s);
    case Named(n) => {
      match c.Decl(n)
      case Struct(fields) => StructIsLeast(c, n, fields, s);
      case Tagged(variants) => TaggedIsLeast(c, n, variants, s);
      case Repr(repr, form, discs) => ReprIsLeast(c, n, repr, form, discs, s);
    }
    case _ => LeafIsLeast(c, t, s);
  }

  lemma LeafIsLeast(c: Codec, t: Type, s: Input)
    requires Bounded(c, s) && IsLeaf(t)
    ensures LeastOut(c, t, s, With(c, t, s))
  {
    match t
    case Integer(i) =>
      IntIsLeast(i, s);
      hide Least;
    case Boolean => BooleanIsLeast(s);
    case Var(w) =>
      VarIsLeast(w, s);
      hide Least, TakeVar;
    case Fixed(n) =>
      if n <= |s.rest| { TakenIsLeast(s.rest, n); }
      hide Least;
    case Text =>
      TextIsLeast(c, s);
      hide WithText, Least;
  }

  /** A flag is one byte, and the encoder's is 0 or 1. */
  lemma BooleanIsLeast(s: Input)
    ensures s.rest != [] ==> Least([if s.rest[0] != 0 then 1 else 0], s.rest, s.rest[1..])
  {}

  lemma TextIsLeast(c: Codec, s: Input)
    requires Bounded(c, s)
    ensures var r := WithText(c, s);
            r.Ok? ==> r.value.Data? && Least(EncodeLength(|r.value.data|) + r.value.data, s.rest, r.next.rest)
  {
    LengthIsLeast(s, c.limits.stringBytes);
    var (r, raw) := (WithText(c, s), TakeVar(W32, s));
    hide TakeVar, Least;
    if r.Ok? {
      TakenIsLeast(raw.next.rest, raw.value);
      LeastChain(EncodeLength(raw.value), r.value.data, s.rest, raw.next.rest, r.next.rest);
    }
  }

  lemma ReprIsLeast(c: Codec, n: nat, repr: IntType, form: DiscForm, discs: seq<int>, s: Input)
    requires Bounded(c, s) && Straight(c) && c.Decl(n) == Repr(repr, form, discs)
    ensures LeastOut(c, Named(n), s, With(c, Named(n), s))
  {
    assert StraightDecl(c.decls[n]);
    var r := TakeDisc(repr, form, s);
    if r.Ok? && r.value in discs {
      DiscIsLeast(repr, form, s);
    }
    hide TakeDisc, Least, EncodeDisc, Straight;
  }

  lemma EncodePresent(c: Codec, elem: Type, v: Value)
    ensures Encode(c, Optional(elem), Present(v)) == [1] + Encode(c, elem, v)
  {
    hide EncodeFields, EncodeItems, Codec.Decl;
  }

  lemma {:induction false} OptionalIsLeast(c: Codec, elem: Type, s: Input)
    requires Bounded(c, s) && Straight(c)
    ensures LeastOut(c, Optional(elem), s, With(c, Optional(elem), s))
    decreases c.limits.depth - s.depth, 4
  {
    BooleanIsLeast(s);
    if s.depth < c.limits.depth && s.rest != [] && s.rest[0] != 0 {
      var mid := Take(s, 1).next;
      hide Call, Least, Encode, With;
      WithOptional(c, elem, s);
      CallIsLeast(c, elem, mid);
      var inner := Call(c, elem, mid);
      if inner.Ok? {
        EncodePresent(c, elem, inner.value);
        LeastChain([1], Encode(c, elem, inner.value), s.rest, mid.rest, inner.next.rest);
      }
    } else {
      WithAbsent(c, elem, s);
      hide With, Least;
    }
  }

  lemma EncodeCase(c: Codec, n: nat, variants: seq<Variant>, k: nat, v: Value)
    requires c.Decl(n) == Tagged(variants) && k < |variants|
    ensures Encode(c, Named(n), Case(k, v)) == EncodeVar(W32, variants[k].id) + Encode(c, variants[k].payload, v)
  {
    hide EncodeFields, EncodeItems, Codec.Decl, EncodeVar;
  }

  lemma {:induction false} TaggedIsLeast(c: Codec, n: nat, variants: seq<Variant>, s: Input)
    requires Bounded(c, s) && Straight(c) && c.Decl(n) == Tagged(variants)
    ensures LeastOut(c, Named(n), s, With(c, Named(n), s))
    decreases c.limits.depth - s.depth, 4
  {
    VarIsLeast(W32, s);
    var id := TakeVar(W32, s);
    hide TakeVar, Least, Encode, With, Call, EncodeVar;
    WithTagged(c, n, variants, s);
    if s.depth < c.limits.depth && id.Ok? && FindVariant(variants, id.value).Some? {
      var k := FindVariant(variants, id.value).value;
      CallIsLeast(c, variants[k].payload, id.next);
      var inner := Call(c, variants[k].payload, id.next);
      if inner.Ok? {
        EncodeCase(c, n, variants, k, inner.value);
        LeastChain(EncodeVar(W32, id.value), Encode(c, variants[k].payload, inner.value), s.rest, id.next.rest, inner.next.rest);
      }
    }
  }

  lemma EncodeVector(c: Codec, elem: Type, size: nat, v: Value)
    requires v.Items?
    ensures Encode(c, Vector(elem, size), v) == EncodeLength(|v.items|) + EncodeItems(c, elem, v, 0)
  {
    hide EncodeItems, EncodeLength;
  }

  lemma {:induction false} VectorIsLeast(c: Codec, elem: Type, size: nat, s: Input)
    requires Bounded(c, s) && Straight(c)
    ensures LeastOut(c, Vector(elem, size), s, With(c, Vector(elem, size), s))
    decreases c.limits.depth - s.depth, 4
  {
    LengthIsLeast(s, c.limits.collection);
    var raw := TakeVar(W32, s);
    hide TakeVar, Least, Encode, With, Counted, EncodeItems, EncodeLength;
    WithVector(c, elem, size, s);
    if s.depth < c.limits.depth && raw.Ok? && 0 <= raw.value <= c.limits.collection {
      CountedIsLeast(c, elem, raw.value, size, raw.next);
      var inner := Counted(c, elem, raw.value, size, raw.next);
      if inner.Ok? {
        EncodeVector(c, elem, size, inner.value);
        LeastChain(EncodeLength(raw.value), EncodeItems(c, elem, inner.value, 0), s.rest, raw.next.rest, inner.next.rest);
      }
    }
  }

  lemma {:induction false} CountedIsLeast(c: Codec, elem: Type, len: nat, size: nat, s: Input)
    requires Bounded(c, s) && Straight(c)
    ensures var r := Counted(c, elem, len, size, s);
            r.Ok? ==> r.value.Items? && |r.value.items| == len && Least(EncodeItems(c, elem, r.value, 0), s.rest, r.next.rest)
    decreases c.limits.depth - s.depth, 2
  {
    hide List, EncodeItems, Least;
    var charged := s.(elements := s.elements + len, heap := s.heap + len * size);
    if Bounded(c, charged) {
      ListIsLeast(c, elem, len, charged);
    }
  }

  lemma {:induction false} ShiftedItems(c: Codec, t: Type, all: Value, tail: Value, i: nat)
    requires all.Items? && tail.Items? && |all.items| == |tail.items| + 1 && all.items[1..] == tail.items && i <= |tail.items|
    ensures EncodeItems(c, t, all, i + 1) == EncodeItems(c, t, tail, i)
    decreases |tail.items| - i
  {
    if i < |tail.items| {
      assert all.items[i + 1] == tail.items[i];
      ShiftedItems(c, t, all, tail, i + 1);
    }
  }

  lemma {:induction false} ListIsLeast(c: Codec, t: Type, n: nat, s: Input)
    requires Bounded(c, s) && Straight(c)
    ensures var r := List(c, t, n, s); r.Ok? ==> Least(EncodeItems(c, t, Items(r.value), 0), s.rest, r.next.rest)
    decreases c.limits.depth - s.depth, 1, n
  {
    if n == 0 {
      assert EncodeItems(c, t, Items([]), 0) == [] by { assert Items([]).items == []; }
      NothingIsLeast(s.rest);
    } else {
      hide Call, Encode, Least;
      CallIsLeast(c, t, s);
      var head := Call(c, t, s);
      if head.Ok? {
        ListIsLeast(c, t, n - 1, head.next);
        var tail := List(c, t, n - 1, head.next);
        if tail.Ok? {
          var all := Items([head.value] + tail.value);
          ShiftedItems(c, t, all, Items(tail.value), 0);
          assert all.items[0] == head.value;
          LeastChain(Encode(c, t, head.value), EncodeItems(c, t, Items(tail.value), 0), s.rest, head.next.rest, tail.next.rest);
        }
      }
    }
  }

  lemma EncodeRecord(c: Codec, n: nat, fields: seq<Field>, v: Value)
    requires c.Decl(n) == Struct(fields) && v.Record?
    ensures Encode(c, Named(n), v) == EncodeFields(c, fields, v, 0)
  {
    hide EncodeFields, Codec.Decl;
  }

  lemma {:induction false} StructIsLeast(c: Codec, n: nat, fields: seq<Field>, s: Input)
    requires Bounded(c, s) && Straight(c) && c.Decl(n) == Struct(fields)
    ensures LeastOut(c, Named(n), s, With(c, Named(n), s))
    decreases c.limits.depth - s.depth, 4, |fields| + 1
  {
    FieldsAreLeast(c, fields, [], s);
    var r := Fields(c, fields, [], s);
    hide Fields, EncodeFields, Least, Encode;
    if r.Ok? { EncodeRecord(c, n, fields, Record(r.value)); }
  }

  lemma {:induction false} FieldsAreLeast(c: Codec, fields: seq<Field>, done: seq<Value>, s: Input)
    requires Bounded(c, s) && Straight(c) && |done| <= |fields|
    ensures var r := Fields(c, fields, done, s); r.Ok? ==> Least(EncodeFields(c, fields, Record(r.value), |done|), s.rest, r.next.rest)
    decreases c.limits.depth - s.depth, 4, |fields| - |done|
  {
    hide OneField, EncodeField, Least;
    NothingIsLeast(s.rest);
    if |done| < |fields| {
      FieldIsLeast(c, fields[|done|], done, s);
      var head := OneField(c, fields[|done|], done, s);
      if head.Ok? {
        FieldsAreLeast(c, fields, done + [head.value], head.next);
        var r := Fields(c, fields, done + [head.value], head.next);
        if r.Ok? {
          assert r.value[|done|] == head.value;
          LeastChain(EncodeField(c, fields[|done|], head.value), EncodeFields(c, fields, Record(r.value), |done| + 1),
                     s.rest, head.next.rest, r.next.rest);
        }
      }
    }
  }

  lemma {:induction false} FieldIsLeast(c: Codec, f: Field, done: seq<Value>, s: Input)
    requires Bounded(c, s) && Straight(c)
    ensures var r := OneField(c, f, done, s); r.Ok? ==> Least(EncodeField(c, f, r.value), s.rest, r.next.rest)
    decreases c.limits.depth - s.depth, 3
  {
    hide Call, Counted, Checked, Encode, EncodeItems, Least;
    match f
    case Plain(t) => CallIsLeast(c, t, s);
    case FixedBytes(e, _) =>
      if Checked(e, Numbers(done)).Some? && Checked(e, Numbers(done)).value <= |s.rest| {
        TakenIsLeast(s.rest, Checked(e, Numbers(done)).value);
      }
    case FixedItems(e, _, elem, size) =>
      if Checked(e, Numbers(done)).Some? { CountedIsLeast(c, elem, Checked(e, Numbers(done)).value, size, s); }
    case Remaining =>
      TakenIsLeast(s.rest, |s.rest|);
      assert s.rest[..|s.rest|] == s.rest && s.rest[|s.rest|..] == [];
  }

  /** Of all byte strings that decode to a value none is shorter than what the encoder
      writes for it, and of those as long none has a smaller byte anywhere. */
  lemma EncodingIsLeast(c: Codec, t: Type, input: bytes)
    requires Straight(c) && DecodeExact(c, t, input).Ok?
    ensures var e := Encode(c, t, DecodeExact(c, t, input).value);
            |e| <= |input| && (|e| == |input| ==> forall i :: 0 <= i < |input| ==> e[i] <= input[i])
  {
    hide Call, Encode;
    CallIsLeast(c, t, Input(input, 0, 0, 0));
  }
}
