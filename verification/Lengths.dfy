/** The two evaluators that void-codec-macros/src/attrs.rs generates for one length
    expression: the encoder computes in the fields' own integer type, the decoder
    in checked unsigned arithmetic. */
module Lengths {
  import opened Options
  import opened Wire

  datatype Operator = Add | Sub | Mul | Div | Rem

  /** `Name(i)` is the i-th field of the struct. */
  datatype Expr =
    | Literal(n: int)
    | Name(i: nat)
    | Binary(op: Operator, left: Expr, right: Expr)
    | Paren(inner: Expr)

  /** What an overflow does in the encoder, by build profile. */
  datatype Overflow = Panics | Wraps

  /** Every leaf is a number of the expression's type. */
  predicate Bound(t: IntType, e: Expr, env: seq<int>) {
    match e
    case Literal(n) => t.InRange(n)
    case Name(i) => i < |env| && t.InRange(env[i])
    case Binary(_, l, r) => Bound(t, l, env) && Bound(t, r, env)
    case Paren(inner) => Bound(t, inner, env)
  }

  function Quotient(a: int, b: int): int
    requires b != 0
  {
    if a >= 0 then a / b else -(-a / b)
  }

  /** What a division towards zero leaves: less than the divisor, with the sign of the dividend. */
  predicate Remains(a: int, b: int, r: int) {
    (if a >= 0 then 0 <= r else r <= 0) && (r < b || r < -b) && (-r < b || -r < -b)
  }

  /** The quotient is the one number that leaves such a remainder. */
  lemma QuotientTruncates(a: int, b: int, q: int)
    requires b != 0
    ensures q == Quotient(a, b) <==> Remains(a, b, a - q * b)
  {
    var x := Quotient(a, b);
    if a >= 0 {
      assert a == a / b * b + a % b;
    } else {
      assert -a == -a / b * b + (-a) % b;
      assert x * b == -(-a / b * b);
    }
    assert Remains(a, b, a - x * b);
    if q != x {
      assert q * b - x * b == (q - x) * b;
      AtLeastOnce(q - x, b);
    }
  }

  lemma AtLeastOnce(x: int, b: int)
    requires x != 0
    ensures b >= 0 ==> x * b >= b || x * b <= -b
    ensures b <= 0 ==> x * b <= b || x * b >= -b
  {}

  /** The operator on exact integers, `None` for a division by zero. */
  function Exactly(op: Operator, a: int, b: int): Option<int> {
    match op
    case Add => Some(a + b)
    case Sub => Some(a - b)
    case Mul => Some(a * b)
    case Div => if b == 0 then None else Some(Quotient(a, b))
    case Rem => if b == 0 then None else Some(a - Quotient(a, b) * b)
  }

  /** The encoder's evaluation; `None` is a panic. */
  function Native(overflow: Overflow, t: IntType, e: Expr, env: seq<int>): Option<int>
    requires Bound(t, e, env)
  {
    match e
    case Literal(n) => Some(n)
    case Name(i) => Some(env[i])
    case Paren(inner) => Native(overflow, t, inner, env)
    case Binary(op, l, r) =>
      var (a, b) := (Native(overflow, t, l, env), Native(overflow, t, r, env));
      if a.None? || b.None? then None
      else
        var x := Exactly(op, a.value, b.value);
        if x.None? || t.InRange(x.value) then x
        else if overflow.Panics? || op.Div? || op.Rem? then None
        else Some(t.Wrap(x.value))
  }

  /** `(x as i64) as usize`. */
  function AsUsize(x: int): nat {
    x % (USIZE_MAX + 1)
  }

  function ToUsize(x: int): Option<nat> {
    if 0 <= x <= USIZE_MAX then Some(x) else None
  }

  /** The decoder's evaluation; `None` is an invalid length. */
  function Checked(e: Expr, env: seq<int>): (r: Option<nat>)
    ensures r.Some? ==> r.value <= USIZE_MAX
  {
    match e
    case Literal(n) => ToUsize(n)
    case Name(i) => if i < |env| then ToUsize(env[i]) else None
    case Paren(inner) => Checked(inner, env)
    case Binary(op, l, r) =>
      var (a, b) := (Checked(l, env), Checked(r, env));
      if op.Rem? || a.None? || b.None? then None
      else
        match Exactly(op, a.value, b.value)
        case None => None
        case Some(x) => ToUsize(x)
  }

  /** The value of an expression as a length: defined when every subexpression is
      non-negative and fits the type, no divisor is zero and only the four checked
      operators occur. */
  function Length(t: IntType, e: Expr, env: seq<int>): (r: Option<int>)
    ensures Bound(t, e, env) && r.Some? ==> 0 <= r.value <= t.Max()
  {
    match e
    case Literal(n) => if n >= 0 then Some(n) else None
    case Name(i) => if i < |env| && env[i] >= 0 then Some(env[i]) else None
    case Paren(inner) => Length(t, inner, env)
    case Binary(op, l, r) =>
      var (a, b) := (Length(t, l, env), Length(t, r, env));
      if op.Rem? || a.None? || b.None? then None
      else
        var x := Exactly(op, a.value, b.value);
        if x.Some? && 0 <= x.value <= t.Max() then x else None
  }

  predicate Tame(t: IntType, e: Expr, env: seq<int>) {
    Length(t, e, env).Some?
  }

  lemma {:induction false} TameValue(overflow: Overflow, t: IntType, e: Expr, env: seq<int>)
    requires Bound(t, e, env) && Tame(t, e, env)
    ensures Native(overflow, t, e, env) == Length(t, e, env) == Checked(e, env)
  {
    assert t.Max() <= USIZE_MAX;
    hide Exactly, IntType.Modulus;
    match e
    case Paren(inner) => TameValue(overflow, t, inner, env);
    case Binary(op, l, r) =>
      TameValue(overflow, t, l, env);
      TameValue(overflow, t, r, env);
    case _ =>
  }

  /** The decoder only ever sees the exact value. */
  lemma {:induction false} BothTame(t: IntType, e: Expr, env: seq<int>)
    requires Bound(t, e, env) && Native(Panics, t, e, env).Some? && Checked(e, env).Some?
    ensures Tame(t, e, env)
  {
    assert t.Max() <= USIZE_MAX;
    hide Exactly, IntType.Modulus;
    match e
    case Paren(inner) => BothTame(t, inner, env);
    case Binary(op, l, r) =>
      BothTame(t, l, env);
      BothTame(t, r, env);
      TameValue(Panics, t, l, env);
      TameValue(Panics, t, r, env);
    case _ =>
  }

  /** With overflow checks on, both evaluations succeed exactly on tame expressions,
      and then they agree on a length. */
  lemma EvaluatorsAgree(t: IntType, e: Expr, env: seq<int>)
    requires Bound(t, e, env)
    ensures Native(Panics, t, e, env).Some? && Checked(e, env).Some? <==> Tame(t, e, env)
    ensures Tame(t, e, env) ==>
      Some(AsUsize(Native(Panics, t, e, env).value)) == Checked(e, env) && Native(Wraps, t, e, env) == Native(Panics, t, e, env)
  {
    hide Native, Checked, Length, AsUsize;
    if Tame(t, e, env) {
      TameValue(Panics, t, e, env);
      TameValue(Wraps, t, e, env);
      SmallAsUsize(t, Length(t, e, env).value);
    } else if Native(Panics, t, e, env).Some? && Checked(e, env).Some? {
      BothTame(t, e, env);
    }
  }

  lemma SmallAsUsize(t: IntType, x: int)
    requires 0 <= x <= t.Max()
    ensures AsUsize(x) == x
  {
    assert t.Max() <= USIZE_MAX;
  }

  /** A value the encoder writes without panicking is read with the same length exactly
      when the expression is tame. */
  lemma WrittenLengthIsRead(t: IntType, e: Expr, env: seq<int>)
    requires Bound(t, e, env) && Native(Panics, t, e, env).Some?
    ensures Checked(e, env) == Some(AsUsize(Native(Panics, t, e, env).value)) <==> Tame(t, e, env)
  {
    EvaluatorsAgree(t, e, env);
  }

  /** Without overflow checks the two can succeed and disagree: 200 + 100 in one byte
      is 44 to the encoder and 300 to the decoder. */
  lemma WrappingDisagrees()
    ensures var e := Binary(Add, Name(0), Name(1));
            Bound(U8, e, [200, 100]) && Native(Wraps, U8, e, [200, 100]) == Some(44) && Checked(e, [200, 100]) == Some(300)
  {
    assert U8.Wrap(300) == 44;
  }

  /** A negative difference on the way is fine for the encoder and an error for the decoder. */
  lemma NegativeStepDisagrees()
    ensures var e := Binary(Add, Binary(Sub, Name(0), Name(1)), Name(2));
            Bound(I32, e, [1, 2, 5]) && Native(Panics, I32, e, [1, 2, 5]) == Some(4) && Checked(e, [1, 2, 5]).None?
  {}
}
