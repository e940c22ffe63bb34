/** Block-state ids of void-data/build.rs: properties as digits of a mixed-radix
    number, the rightmost changing fastest, and the accessors emitted for them. */
module StateIds {
  import opened Options

  /** `Integer(max)` stands for the values 0..=max, `Choice(n)` for n named ones. */
  datatype Kind = Flag | Integer(max: nat) | Choice(n: nat)
  {
    predicate Valid() {
      match this
      case Flag => true
      case Integer(max) => max < 256
      case Choice(n) => n > 0
    }

    function Card(): (n: nat)
      ensures Valid() ==> n > 0
    {
      match this
      case Flag => 2
      case Integer(max) => max + 1
      case Choice(n) => n
    }
  }

  datatype Value = Truth(b: bool) | Number(n: nat) | Named(k: nat)

  predicate Fits(kind: Kind, v: Value) {
    match kind
    case Flag => v.Truth?
    case Integer(max) => v.Number? && v.n <= max
    case Choice(n) => v.Named? && v.k < n
  }

  /** True comes first. */
  function IndexOf(v: Value): nat {
    match v
    case Truth(b) => if b then 0 else 1
    case Number(n) => n
    case Named(k) => k
  }

  function ValueAt(kind: Kind, i: nat): Value {
    match kind
    case Flag => Truth(i == 0)
    case Integer(_) => Number(i)
    case Choice(_) => Named(i)
  }

  datatype Block = Block(min: int, max: int, defaultId: int, properties: seq<Kind>)

  predicate ValidKinds(kinds: seq<Kind>) {
    forall i :: 0 <= i < |kinds| ==> kinds[i].Valid()
  }

  predicate FitAll(kinds: seq<Kind>, values: seq<Value>) {
    |values| == |kinds| && forall i :: 0 <= i < |kinds| ==> Fits(kinds[i], values[i])
  }

  function Cards(kinds: seq<Kind>): (cards: seq<nat>)
    ensures |cards| == |kinds| && forall i :: 0 <= i < |kinds| ==> cards[i] == kinds[i].Card()
  {
    seq(|kinds|, i requires 0 <= i < |kinds| => kinds[i].Card())
  }

  // ---- digits ------------------------------------------------------------------------

  predicate Positive(cards: seq<nat>) {
    forall i :: 0 <= i < |cards| ==> cards[i] > 0
  }

  predicate Digits(cards: seq<nat>, digits: seq<nat>) {
    |digits| == |cards| && forall i :: 0 <= i < |cards| ==> digits[i] < cards[i]
  }

  function Times(a: nat, b: nat): nat {
    a * b
  }

  function Product(cards: seq<nat>): (p: nat)
    ensures Positive(cards) ==> p > 0
  {
    if cards == [] then 1 else
      assert Positive(cards) ==> Positive(cards[1..]) && cards[0] > 0;
      TimesPositive(cards[0], Product(cards[1..]));
      Times(cards[0], Product(cards[1..]))
  }

  lemma TimesPositive(a: nat, b: nat)
    ensures a > 0 && b > 0 ==> Times(a, b) > 0
  {}

  function Stride(cards: seq<nat>, i: nat): nat
    requires i < |cards|
  {
    Product(cards[i + 1..])
  }

  /** The sum of index times stride. */
  function Ordinal(cards: seq<nat>, digits: seq<nat>): nat
    requires |digits| == |cards|
  {
    if cards == [] then 0 else Times(digits[0], Product(cards[1..])) + Ordinal(cards[1..], digits[1..])
  }

  /** Left to right: quotient and remainder by the stride. */
  function FromLeft(cards: seq<nat>, rem: nat): (digits: seq<nat>)
    requires Positive(cards)
    ensures |digits| == |cards|
  {
    if cards == [] then [] else
      var stride := Product(cards[1..]);
      assert Positive(cards[1..]);
      [rem / stride] + FromLeft(cards[1..], rem % stride)
  }

  /** Right to left: remainder and quotient by the cardinality. */
  function FromRight(cards: seq<nat>, rem: nat): (digits: seq<nat>)
    requires Positive(cards)
    ensures |digits| == |cards|
  {
    if cards == [] then [] else
      var n := |cards| - 1;
      FromRight(cards[..n], rem / cards[n]) + [rem % cards[n]]
  }

  // ---- arithmetic, one product at a time -------------------------------------------------

  lemma DivMod(a: nat, d: nat, b: nat)
    requires b < d
    ensures (Times(a, d) + b) / d == a && (Times(a, d) + b) % d == b
  {
    var n := a * d + b;
    assert n == d * (n / d) + n % d;
    if n / d > a {
      assert d * (n / d) >= d * (a + 1);
    } else if n / d < a {
      assert d * (n / d) <= d * (a - 1);
    }
  }

  lemma TimesLe(a: nat, k: nat, d: nat)
    ensures Times(a, d) <= Times(a + k, d)
  {
    assert (a + k) * d == a * d + k * d;
    assert k * d >= 0;
  }

  lemma TimesMono(a: nat, b: nat, d: nat)
    requires a < b
    ensures Times(a, d) + d <= Times(b, d)
  {
    TimesLe(a + 1, b - a - 1, d);
    assert (a + 1) * d == a * d + d;
  }

  lemma Quotient(n: nat, d: nat, c: nat)
    requires d > 0 && n < Times(c, d)
    ensures n / d < c && n == Times(n / d, d) + n % d
  {
    assert n == (n / d) * d + n % d;
    if n / d >= c {
      TimesLe(c, n / d - c, d);
    }
  }

  lemma TimesAssoc(a: nat, b: nat, c: nat)
    ensures Times(Times(a, b), c) == Times(a, Times(b, c))
  {}

  lemma TimesSum(a: nat, b: nat, c: nat)
    ensures Times(a + b, c) == Times(a, c) + Times(b, c)
  {}

  // ---- ordinals and digits ------------------------------------------------------------------

  lemma {:induction false} OrdinalBound(cards: seq<nat>, digits: seq<nat>)
    requires Digits(cards, digits)
    ensures Ordinal(cards, digits) < Product(cards)
  {
    if cards != [] {
      hide Times;
      assert Digits(cards[1..], digits[1..]);
      OrdinalBound(cards[1..], digits[1..]);
      TimesMono(digits[0], cards[0], Product(cards[1..]));
    }
  }

  /** Every number below the product is the ordinal of its digits. */
  lemma {:induction false} OrdinalOfLeft(cards: seq<nat>, n: nat)
    requires Positive(cards) && n < Product(cards)
    ensures Digits(cards, FromLeft(cards, n)) && Ordinal(cards, FromLeft(cards, n)) == n
  {
    if cards != [] {
      hide Times;
      var stride := Product(cards[1..]);
      assert Positive(cards[1..]);
      Quotient(n, stride, cards[0]);
      OrdinalOfLeft(cards[1..], n % stride);
      var digits := FromLeft(cards, n);
      assert digits[1..] == FromLeft(cards[1..], n % stride);
      assert forall i :: 0 < i < |cards| ==> digits[i] == digits[1..][i - 1] && cards[i] == cards[1..][i - 1];
    }
  }

  lemma {:induction false} ProductSnoc(cards: seq<nat>, last: nat)
    ensures Product(cards + [last]) == Times(Product(cards), last)
  {
    hide Times;
    if cards == [] {
      assert [] + [last] == [last];
      assert Product([last]) == Times(last, 1) && Times(last, 1) == Times(1, last) by { TimesOne(last); }
    } else {
      assert (cards + [last])[0] == cards[0] && (cards + [last])[1..] == cards[1..] + [last];
      ProductSnoc(cards[1..], last);
      TimesAssoc(cards[0], Product(cards[1..]), last);
    }
  }

  lemma TimesOne(a: nat)
    ensures Times(a, 1) == a == Times(1, a)
  {}

  lemma {:induction false} OrdinalSnoc(cards: seq<nat>, digits: seq<nat>, last: nat, d: nat)
    requires |digits| == |cards|
    ensures Ordinal(cards + [last], digits + [d]) == Times(Ordinal(cards, digits), last) + d
  {
    hide Times;
    if cards == [] {
      assert [] + [last] == [last] && digits + [d] == [d];
      assert Ordinal([last], [d]) == Times(d, 1) + 0;
      TimesOne(d);
      TimesZero(last);
    } else {
      assert (cards + [last])[0] == cards[0] && (cards + [last])[1..] == cards[1..] + [last];
      assert (digits + [d])[0] == digits[0] && (digits + [d])[1..] == digits[1..] + [d];
      OrdinalSnoc(cards[1..], digits[1..], last, d);
      ProductSnoc(cards[1..], last);
      TimesAssoc(digits[0], Product(cards[1..]), last);
      TimesSum(Times(digits[0], Product(cards[1..])), Ordinal(cards[1..], digits[1..]), last);
    }
  }

  lemma TimesZero(a: nat)
    ensures Times(0, a) == 0
  {}

  /** Reading the digits off from the right undoes the sum too. */
  lemma {:induction false} RightOfOrdinal(cards: seq<nat>, digits: seq<nat>)
    requires Positive(cards) && Digits(cards, digits)
    ensures FromRight(cards, Ordinal(cards, digits)) == digits
  {
    if cards != [] {
      hide Times;
      var n := |cards| - 1;
      assert cards == cards[..n] + [cards[n]] && digits == digits[..n] + [digits[n]];
      OrdinalSnoc(cards[..n], digits[..n], cards[n], digits[n]);
      DivMod(Ordinal(cards[..n], digits[..n]), cards[n], digits[n]);
      RightOfOrdinal(cards[..n], digits[..n]);
    }
  }

  /** The two directions of division read the same digits. */
  lemma BothWays(cards: seq<nat>, n: nat)
    requires Positive(cards) && n < Product(cards)
    ensures FromRight(cards, n) == FromLeft(cards, n)
  {
    OrdinalOfLeft(cards, n);
    RightOfOrdinal(cards, FromLeft(cards, n));
  }

  /** Lexicographic order, the first property being the most significant. */
  predicate Before(a: seq<nat>, b: seq<nat>)
    requires |a| == |b|
  {
    a != [] && (a[0] < b[0] || (a[0] == b[0] && Before(a[1..], b[1..])))
  }

  lemma {:induction false} OrdinalIsLexicographic(cards: seq<nat>, a: seq<nat>, b: seq<nat>)
    requires Digits(cards, a) && Digits(cards, b)
    ensures Ordinal(cards, a) < Ordinal(cards, b) <==> Before(a, b)
  {
    if cards != [] {
      hide Times;
      var rest := cards[1..];
      assert Digits(rest, a[1..]) && Digits(rest, b[1..]);
      OrdinalBound(rest, a[1..]);
      OrdinalBound(rest, b[1..]);
      if a[0] < b[0] {
        TimesMono(a[0], b[0], Product(rest));
      } else if b[0] < a[0] {
        TimesMono(b[0], a[0], Product(rest));
      } else {
        OrdinalIsLexicographic(rest, a[1..], b[1..]);
      }
    }
  }

  // ---- the emitted accessors -----------------------------------------------------------------

  function Indices(values: seq<Value>): (digits: seq<nat>)
    ensures |digits| == |values| && forall i :: 0 <= i < |values| ==> digits[i] == IndexOf(values[i])
  {
    seq(|values|, i requires 0 <= i < |values| => IndexOf(values[i]))
  }

  function ValuesAt(kinds: seq<Kind>, digits: seq<nat>): (values: seq<Value>)
    requires |digits| == |kinds|
    ensures |values| == |kinds| && forall i :: 0 <= i < |kinds| ==> values[i] == ValueAt(kinds[i], digits[i])
  {
    seq(|kinds|, i requires 0 <= i < |kinds| => ValueAt(kinds[i], digits[i]))
  }

  lemma ValidPositive(kinds: seq<Kind>)
    requires ValidKinds(kinds)
    ensures Positive(Cards(kinds))
  {}

  function ToStateId(b: Block, values: seq<Value>): int
    requires |values| == |b.properties|
  {
    b.min + Ordinal(Cards(b.properties), Indices(values))
  }

  function FromStateId(b: Block, id: int): Option<seq<Value>>
    requires ValidKinds(b.properties)
  {
    if id < b.min || id > b.max then None
    else
      ValidPositive(b.properties);
      Some(ValuesAt(b.properties, FromRight(Cards(b.properties), id - b.min)))
  }

  function Default(b: Block): seq<Value>
    requires ValidKinds(b.properties) && b.defaultId >= b.min
  {
    ValidPositive(b.properties);
    ValuesAt(b.properties, FromLeft(Cards(b.properties), b.defaultId - b.min))
  }

  /** The id range holds one id per valuation. */
  predicate Consistent(b: Block) {
    b.max - b.min + 1 == Product(Cards(b.properties))
  }

  lemma IndicesAreDigits(kinds: seq<Kind>, values: seq<Value>)
    requires FitAll(kinds, values)
    ensures Digits(Cards(kinds), Indices(values)) && ValuesAt(kinds, Indices(values)) == values
  {
    forall i | 0 <= i < |kinds| ensures IndexOf(values[i]) < kinds[i].Card() && ValueAt(kinds[i], IndexOf(values[i])) == values[i] {
      assert Fits(kinds[i], values[i]);
    }
  }

  lemma DigitsAreIndices(kinds: seq<Kind>, digits: seq<nat>)
    requires Digits(Cards(kinds), digits)
    ensures FitAll(kinds, ValuesAt(kinds, digits)) && Indices(ValuesAt(kinds, digits)) == digits
  {
    forall i | 0 <= i < |kinds| ensures Fits(kinds[i], ValueAt(kinds[i], digits[i])) && IndexOf(ValueAt(kinds[i], digits[i])) == digits[i] {
      assert digits[i] < Cards(kinds)[i];
    }
  }

  lemma ValuationHasItsId(b: Block, values: seq<Value>)
    requires ValidKinds(b.properties) && Consistent(b) && FitAll(b.properties, values)
    ensures b.min <= ToStateId(b, values) <= b.max && FromStateId(b, ToStateId(b, values)) == Some(values)
  {
    var cards := Cards(b.properties);
    ValidPositive(b.properties);
    IndicesAreDigits(b.properties, values);
    OrdinalBound(cards, Indices(values));
    RightOfOrdinal(cards, Indices(values));
    hide Ordinal, FromRight, Product;
  }

  lemma IdHasItsValuation(b: Block, id: int)
    requires ValidKinds(b.properties) && Consistent(b) && b.min <= id <= b.max
    ensures FromStateId(b, id).Some?
    ensures var v := FromStateId(b, id).value; FitAll(b.properties, v) && ToStateId(b, v) == id
  {
    var cards := Cards(b.properties);
    ValidPositive(b.properties);
    BothWays(cards, id - b.min);
    OrdinalOfLeft(cards, id - b.min);
    DigitsAreIndices(b.properties, FromRight(cards, id - b.min));
    hide Ordinal, FromRight, FromLeft, Product;
  }

  /** For every list of properties, valuations and ids of the block correspond one to
      one: each id of a valuation is in the range and gives it back, each id of the
      range is that of its valuation, and no other id has one. */
  lemma StateIdsAreABijection(b: Block, values: seq<Value>, id: int)
    requires ValidKinds(b.properties) && Consistent(b)
    ensures FitAll(b.properties, values) ==>
      b.min <= ToStateId(b, values) <= b.max && FromStateId(b, ToStateId(b, values)) == Some(values)
    ensures FromStateId(b, id).Some? <==> b.min <= id <= b.max
    ensures FromStateId(b, id).Some? ==>
      var v := FromStateId(b, id).value; FitAll(b.properties, v) && ToStateId(b, v) == id
  {
    if FitAll(b.properties, values) {
      ValuationHasItsId(b, values);
    }
    if b.min <= id <= b.max {
      IdHasItsValuation(b, id);
    }
    hide FitAll, ToStateId, ValidKinds, Consistent;
  }

  /** The two accessors are inverse exactly on consistent blocks: in a range that is too
      long the last id is that of another state, in one that is too short the last state
      has no id. */
  lemma OnlyIfConsistent(b: Block)
    requires ValidKinds(b.properties) && b.min <= b.max
    requires forall id :: b.min <= id <= b.max ==> RoundTripsId(b, id)
    requires forall values :: FitAll(b.properties, values) ==> ToStateId(b, values) <= b.max
    ensures Consistent(b)
  {
    var cards := Cards(b.properties);
    ValidPositive(b.properties);
    var n := Product(cards);
    OrdinalOfLeft(cards, n - 1);
    var last := FromLeft(cards, n - 1);
    DigitsAreIndices(b.properties, last);
    assert ToStateId(b, ValuesAt(b.properties, last)) <= b.max;
    assert RoundTripsId(b, b.max);
    var v := FromStateId(b, b.max).value;
    IndicesAreDigits(b.properties, v);
    OrdinalBound(cards, Indices(v));
  }

  ghost predicate RoundTripsId(b: Block, id: int)
    requires ValidKinds(b.properties)
  {
    FromStateId(b, id).Some? && FitAll(b.properties, FromStateId(b, id).value) && ToStateId(b, FromStateId(b, id).value) == id
  }

  /** True stands before false, numbers and names in their order. */
  predicate Earlier(a: Value, b: Value) {
    match (a, b)
    case (Truth(p), Truth(q)) => p && !q
    case (Number(m), Number(n)) => m < n
    case (Named(j), Named(k)) => j < k
    case _ => false
  }

  /** Earlier in the first property they differ in. */
  predicate Precedes(v: seq<Value>, w: seq<Value>)
    requires |v| == |w|
  {
    exists i :: 0 <= i < |v| && v[..i] == w[..i] && Earlier(v[i], w[i])
  }

  lemma {:induction false} FirstDifference(kinds: seq<Kind>, v: seq<Value>, w: seq<Value>)
    requires FitAll(kinds, v) && FitAll(kinds, w)
    ensures Before(Indices(v), Indices(w)) <==> Precedes(v, w)
  {
    if v != [] {
      assert Fits(kinds[0], v[0]) && Fits(kinds[0], w[0]);
      assert Indices(v)[1..] == Indices(v[1..]) && Indices(w)[1..] == Indices(w[1..]);
      FirstDifference(kinds[1..], v[1..], w[1..]);
      PrecedesNext(v, w);
    }
  }

  lemma PrecedesNext(v: seq<Value>, w: seq<Value>)
    requires |v| == |w| > 0
    ensures Precedes(v, w) <==> Earlier(v[0], w[0]) || (v[0] == w[0] && Precedes(v[1..], w[1..]))
  {
    if v[0] == w[0] && Precedes(v[1..], w[1..]) {
      var i :| 0 <= i < |v| - 1 && v[1..][..i] == w[1..][..i] && Earlier(v[1..][i], w[1..][i]);
      assert v[..i + 1] == [v[0]] + v[1..][..i] && w[..i + 1] == [w[0]] + w[1..][..i];
      assert Earlier(v[i + 1], w[i + 1]);
    }
    if Earlier(v[0], w[0]) {
      assert v[..0] == w[..0];
    } else if Precedes(v, w) {
      var i :| 0 <= i < |v| && v[..i] == w[..i] && Earlier(v[i], w[i]);
      assert v[..i][0] == w[..i][0];
      assert v[1..][..i - 1] == v[..i][1..] && w[1..][..i - 1] == w[..i][1..];
      assert Earlier(v[1..][i - 1], w[1..][i - 1]);
    }
  }

  /** Ids are ordered as the valuations are, by the first property that differs. */
  lemma StateIdsAreOrdered(b: Block, v: seq<Value>, w: seq<Value>)
    requires FitAll(b.properties, v) && FitAll(b.properties, w)
    ensures ToStateId(b, v) < ToStateId(b, w) <==> Precedes(v, w)
  {
    IndicesAreDigits(b.properties, v);
    IndicesAreDigits(b.properties, w);
    OrdinalIsLexicographic(Cards(b.properties), Indices(v), Indices(w));
    FirstDifference(b.properties, v, w);
  }

  /** The default state, divided out from the left, is the state of the default id. */
  lemma DefaultIsFromItsId(b: Block)
    requires ValidKinds(b.properties) && Consistent(b) && b.min <= b.defaultId <= b.max
    ensures FromStateId(b, b.defaultId) == Some(Default(b))
    ensures FitAll(b.properties, Default(b)) && ToStateId(b, Default(b)) == b.defaultId
  {
    ValidPositive(b.properties);
    BothWays(Cards(b.properties), b.defaultId - b.min);
    StateIdsAreABijection(b, Default(b), b.defaultId);
  }

  // ---- the code that computes them -------------------------------------------------------------

  method Strides(cards: seq<nat>) returns (strides: array<nat>)
    ensures strides.Length == |cards| && forall i :: 0 <= i < |cards| ==> strides[i] == Stride(cards, i)
  {
    var n := |cards|;
    strides := new nat[n](_ => 0);
    if n > 0 {
      strides[n - 1] := 1;
      assert cards[n..] == [];
      var i := n - 1;
      while i > 0
        invariant 0 <= i < n
        invariant forall k :: i <= k < n ==> strides[k] == Stride(cards, k)
      {
        i := i - 1;
        strides[i] := strides[i + 1] * cards[i + 1];
        assert cards[i + 1..][0] == cards[i + 1] && cards[i + 1..][1..] == cards[i + 2..];
        assert Stride(cards, i) == Times(cards[i + 1], Stride(cards, i + 1));
      }
    }
  }

  /** The emitted sum, term by term. */
  method StateId(b: Block, values: seq<Value>, strides: array<nat>) returns (id: int)
    requires FitAll(b.properties, values) && strides.Length == |values|
    requires forall i :: 0 <= i < |values| ==> strides[i] == Stride(Cards(b.properties), i)
    ensures id == ToStateId(b, values)
  {
    var cards := Cards(b.properties);
    ghost var digits := Indices(values);
    id := b.min;
    for i := 0 to |values|
      invariant id + Ordinal(cards[i..], digits[i..]) == ToStateId(b, values)
    {
      assert cards[i..][1..] == cards[i + 1..] && digits[i..][1..] == digits[i + 1..];
      assert Times(digits[i], Stride(cards, i)) == IndexOf(values[i]) * strides[i];
      id := id + IndexOf(values[i]) * strides[i];
    }
  }

  /** The emitted reader: the fastest property first. */
  method State(b: Block, id: int) returns (state: Option<seq<Value>>)
    requires ValidKinds(b.properties)
    ensures state == FromStateId(b, id)
  {
    if id < b.min || id > b.max {
      return None;
    }
    var cards := Cards(b.properties);
    ValidPositive(b.properties);
    hide Product, ValidKinds, FromRight;
    var rem: nat := id - b.min;
    var values: seq<Value> := [];
    var i := |cards|;
    ghost var digits: seq<nat> := [];
    RightStart(cards, rem);
    while i > 0
      invariant 0 <= i <= |cards| && |digits| == |values| == |cards| - i
      invariant RightGoesOn(cards, id - b.min, i, rem, digits)
      invariant forall k :: 0 <= k < |values| ==> values[k] == ValueAt(b.properties[i + k], digits[k])
    {
      i := i - 1;
      RightStep(cards, id - b.min, i, rem, digits);
      var idx := rem % cards[i];
      values := [ValueAt(b.properties[i], idx)] + values;
      digits := [idx] + digits;
      rem := rem / cards[i];
    }
    RightEnd(cards, id - b.min, rem, digits);
    assert values == ValuesAt(b.properties, digits);
    return Some(values);
  }

  /** The digits below i are still to be read off `rem`. */
  ghost predicate RightGoesOn(cards: seq<nat>, n: nat, i: nat, rem: nat, digits: seq<nat>)
    requires Positive(cards) && i <= |cards|
  {
    FromRight(cards, n) == FromRight(cards[..i], rem) + digits
  }

  lemma RightStart(cards: seq<nat>, n: nat)
    requires Positive(cards)
    ensures RightGoesOn(cards, n, |cards|, n, [])
  {
    assert cards[..|cards|] == cards;
    assert FromRight(cards, n) + [] == FromRight(cards, n);
    hide FromRight;
  }

  lemma RightStep(cards: seq<nat>, n: nat, i: nat, rem: nat, digits: seq<nat>)
    requires Positive(cards) && i < |cards| && RightGoesOn(cards, n, i + 1, rem, digits)
    ensures RightGoesOn(cards, n, i, rem / cards[i], [rem % cards[i]] + digits)
  {
    var upto := cards[..i + 1];
    assert upto[..i] == cards[..i] && upto[i] == cards[i];
    assert FromRight(upto, rem) == FromRight(cards[..i], rem / cards[i]) + [rem % cards[i]];
    hide FromRight;
  }

  lemma RightEnd(cards: seq<nat>, n: nat, rem: nat, digits: seq<nat>)
    requires Positive(cards) && RightGoesOn(cards, n, 0, rem, digits)
    ensures FromRight(cards, n) == digits
  {
    assert FromRight(cards[..0], rem) == [];
    assert [] + digits == digits;
    hide FromRight;
  }

  // ---- classification of the values --------------------------------------------------------------

  datatype Class = IsFlag | IsInteger(max: nat) | IsChoice

  function Largest(ns: seq<nat>): nat {
    if ns == [] then 0
    else
      var rest := Largest(ns[1..]);
      if ns[0] > rest then ns[0] else rest
  }

  predicate AllNumbers(values: seq<string>, parse: string -> Option<nat>) {
    forall i :: 0 <= i < |values| ==> parse(values[i]).Some?
  }

  function Parsed(values: seq<string>, parse: string -> Option<nat>): (ns: seq<nat>)
    requires AllNumbers(values, parse)
    ensures |ns| == |values| && forall i :: 0 <= i < |values| ==> ns[i] == parse(values[i]).value
  {
    seq(|values|, i requires 0 <= i < |values| => parse(values[i]).value)
  }

  /** `parse` is the parser of unsigned 32-bit numbers; the maximum is kept in a byte. */
  function Classify(values: seq<string>, parse: string -> Option<nat>): Class {
    if |values| == 2 && "true" in values && "false" in values then IsFlag
    else if AllNumbers(values, parse) then IsInteger(Largest(Parsed(values, parse)) % 256)
    else IsChoice
  }

  function CardOf(values: seq<string>, c: Class): nat {
    match c
    case IsFlag => 2
    case IsInteger(max) => max + 1
    case IsChoice => |values|
  }

  /** The i-th listed value is the one the emitted code gives index i. */
  predicate Faithful(values: seq<string>, parse: string -> Option<nat>) {
    var c := Classify(values, parse);
    && CardOf(values, c) == |values|
    && match c
       case IsFlag => values == ["true", "false"]
       case IsInteger(_) => AllNumbers(values, parse) && forall i :: 0 <= i < |values| ==> parse(values[i]) == Some(i)
       case IsChoice => true
  }

  lemma {:induction false} LargestBounds(ns: seq<nat>)
    ensures forall i :: 0 <= i < |ns| ==> ns[i] <= Largest(ns)
    ensures ns != [] ==> Largest(ns) in ns
  {
    if ns != [] {
      LargestBounds(ns[1..]);
      assert forall i :: 0 < i < |ns| ==> ns[i] == ns[1..][i - 1];
    }
  }

  predicate Increasing(ns: seq<nat>) {
    forall i :: 0 < i < |ns| ==> ns[i - 1] < ns[i]
  }

  /** Increasing numbers with as many below the largest as there are places leave no gap. */
  lemma {:induction false} NoGaps(ns: seq<nat>, i: nat)
    requires Increasing(ns) && i < |ns|
    ensures i <= ns[i] <= ns[|ns| - 1] - (|ns| - 1 - i)
  {
    NoneSkipped(ns, i);
    NoneSpare(ns, i);
  }

  lemma {:induction false} NoneSkipped(ns: seq<nat>, i: nat)
    requires Increasing(ns) && i < |ns|
    ensures i <= ns[i]
  {
    if i > 0 {
      NoneSkipped(ns, i - 1);
    }
  }

  lemma {:induction false} NoneSpare(ns: seq<nat>, i: nat)
    requires Increasing(ns) && i < |ns|
    ensures ns[i] <= ns[|ns| - 1] - (|ns| - 1 - i)
    decreases |ns| - i
  {
    if i < |ns| - 1 {
      NoneSpare(ns, i + 1);
    }
  }

  /** Classification looks at the largest number only, kept in a byte, and at which flags
      there are: it is faithful exactly when the numbers increase up to one less than
      their count, which fits the byte, or the flags start with true. */
  lemma ClassifyIsFaithfulWhen(values: seq<string>, parse: string -> Option<nat>)
    ensures Faithful(values, parse) <==>
      match Classify(values, parse)
      case IsFlag => values[0] == "true"
      case IsInteger(_) =>
        0 < |values| <= 256 && Increasing(Parsed(values, parse)) && Largest(Parsed(values, parse)) == |values| - 1
      case IsChoice => true
  {
    match Classify(values, parse)
    case IsFlag => FlagLists(values);
    case IsInteger(_) => NumbersAreFaithfulWhen(values, parse);
    case IsChoice =>
  }

  ghost predicate CountsUp(ns: seq<nat>) {
    forall i :: 0 <= i < |ns| ==> ns[i] == i
  }

  lemma CountsUpWhen(ns: seq<nat>)
    requires ns != []
    ensures CountsUp(ns) <==> Increasing(ns) && Largest(ns) == |ns| - 1
    ensures CountsUp(ns) ==> Largest(ns) == |ns| - 1
  {
    LargestBounds(ns);
    hide Largest;
    var n := |ns|;
    if CountsUp(ns) {
      var k :| 0 <= k < n && ns[k] == Largest(ns);
      assert ns[k] == k && ns[n - 1] == n - 1;
    }
    if Increasing(ns) && Largest(ns) == n - 1 {
      forall i | 0 <= i < n ensures ns[i] == i {
        NoGaps(ns, i);
      }
    }
  }

  lemma NumbersAreFaithfulWhen(values: seq<string>, parse: string -> Option<nat>)
    requires Classify(values, parse).IsInteger?
    ensures var ns := Parsed(values, parse);
            Faithful(values, parse) <==> 0 < |ns| <= 256 && Increasing(ns) && Largest(ns) == |ns| - 1
  {
    var ns := Parsed(values, parse);
    if ns != [] {
      CountsUpWhen(ns);
      assert CountsUp(ns) <==> forall i :: 0 <= i < |values| ==> parse(values[i]) == Some(i) by {
        hide Increasing, Largest;
      }
    }
    hide Largest, Increasing;
  }

  lemma FlagLists(values: seq<string>)
    requires |values| == 2 && "true" in values && "false" in values
    ensures values == ["true", "false"] <==> values[0] == "true"
  {
    assert "true" != "false" by { assert "true"[0] != "false"[0]; }
    if values[0] == "true" {
      assert values[1] == "false";
    }
  }
}
