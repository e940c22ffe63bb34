/** The bounded decoder of void-codec/src/lib.rs and the big-endian integers of
    void-codec/src/primitives/integers.rs.

    `Input` is the decoder's state; a step yields a value or an error, and in both
    cases the state it leaves behind. The target is a 64-bit machine. */
module Wire {
  import opened Options
  import opened VarInt

  const USIZE_MAX := 0xFFFF_FFFF_FFFF_FFFF
  type usize = x: nat | x <= USIZE_MAX

  datatype Limits = Limits(
    stringBytes: usize,
    collection: usize,
    total: usize,
    allocation: usize,
    remaining: usize,
    nbtBytes: usize,
    depth: usize)

  datatype LimitKind =
    StringBytes | CollectionElements | TotalElements | AllocationBytes | RemainingBytes | NbtBytes | DecodeDepth

  datatype DecodeError =
    | UnexpectedEof
    | InvalidVarintLength
    | InvalidPacketId(id: Option<byte>)
    | InvalidLength
    | LimitExceeded(kind: LimitKind, requested: nat, limit: nat)
    | TrailingData(remaining: nat)

  datatype Input = Input(rest: bytes, elements: nat, heap: nat, depth: nat)

  datatype Outcome<+T> = Ok(value: T, next: Input) | Err(error: DecodeError, next: Input)

  // ---- the primitive steps -----------------------------------------------------------

  function Take(s: Input, n: nat): (r: Outcome<bytes>)
    ensures r.Ok? <==> n <= |s.rest|
  {
    if |s.rest| < n then Err(UnexpectedEof, s) else Ok(s.rest[..n], s.(rest := s.rest[n..]))
  }

  /** Bytes are taken off the front, or none are. */
  lemma TakeSplits(s: Input, n: nat)
    ensures var r := Take(s, n);
            if n <= |s.rest| then r.Ok? && |r.value| == n && r.value + r.next.rest == s.rest && r.next == s.(rest := r.next.rest)
            else r == Err(UnexpectedEof, s)
  {}

  function CheckedLen(value: int, kind: LimitKind, limit: usize, s: Input): Outcome<nat> {
    if value < 0 then Err(InvalidLength, s)
    else if value > limit then Err(LimitExceeded(kind, value, limit), s)
    else Ok(value, s)
  }

  function ChargeElements(l: Limits, s: Input, count: nat): Outcome<()> {
    if count > l.collection then Err(LimitExceeded(CollectionElements, count, l.collection), s)
    else if s.elements + count > USIZE_MAX then Err(InvalidLength, s)
    else if s.elements + count > l.total then Err(LimitExceeded(TotalElements, s.elements + count, l.total), s)
    else Ok((), s.(elements := s.elements + count))
  }

  function ChargeAllocation(l: Limits, s: Input, amount: nat): Outcome<()> {
    if amount > USIZE_MAX || s.heap + amount > USIZE_MAX then Err(InvalidLength, s)
    else if s.heap + amount > l.allocation then
      Err(LimitExceeded(AllocationBytes, s.heap + amount, l.allocation), s)
    else Ok((), s.(heap := s.heap + amount))
  }

  function TakeVar(w: Width, s: Input): (r: Outcome<int>)
    ensures r.next == s.(rest := r.next.rest)
  {
    VarFits(w, s.rest);
    match ReadVar(w, s.rest)
    case Value(value, used) => Ok(w.FromPattern(value), s.(rest := s.rest[used..]))
    case Eof(used) => Err(UnexpectedEof, s.(rest := s.rest[used..]))
    case Overlong(used) => Err(InvalidVarintLength, s.(rest := s.rest[used..]))
  }

  lemma VarFits(w: Width, input: bytes)
    ensures var r := ReadVar(w, input); r.used <= |input| && (r.Value? ==> r.value < w.Modulus())
  {
    LastByte(w);
    ReadIsBounded(w, input, 0, 0);
  }

  lemma TakeVarEncoded(w: Width, x: int, s: Input, more: bytes)
    requires w.Signed(x) && s.rest == EncodeVar(w, x) + more
    ensures TakeVar(w, s) == Ok(x, s.(rest := more))
  {
    RoundTrip(w, x, more);
    Roundabout(w, x);
    assert s.rest[|EncodeVar(w, x)|..] == more;
  }

  lemma Roundabout(w: Width, x: int)
    requires w.Signed(x)
    ensures w.FromPattern(w.Pattern(x)) == x
  {}

  // ---- fixed-width integers ------------------------------------------------------------

  datatype IntType = U8 | I8 | U16 | I16 | U32 | I32 | U64 | I64
  {
    function Bytes(): nat {
      match this
      case U8 => 1 case I8 => 1
      case U16 => 2 case I16 => 2
      case U32 => 4 case I32 => 4
      case U64 => 8 case I64 => 8
    }

    predicate IsSigned() {
      I8? || I16? || I32? || I64?
    }

    function Modulus(): (m: nat)
      ensures m > 0 && m % 2 == 0
    {
      match this
      case U8 => 0x100 case I8 => 0x100
      case U16 => 0x1_0000 case I16 => 0x1_0000
      case U32 => 0x1_0000_0000 case I32 => 0x1_0000_0000
      case U64 => 0x1_0000_0000_0000_0000 case I64 => 0x1_0000_0000_0000_0000
    }

    function Max(): int {
      if IsSigned() then Modulus() / 2 - 1 else Modulus() - 1
    }

    predicate InRange(x: int) {
      if IsSigned() then -(Modulus() / 2) <= x <= Max() else 0 <= x <= Max()
    }

    /** The cast `x as T`: the low bits, reinterpreted. */
    function Wrap(x: int): (r: int)
      ensures InRange(r)
    {
      var u := x % Modulus();
      if IsSigned() && u >= Modulus() / 2 then u - Modulus() else u
    }
  }

  lemma WrapInRange(t: IntType, x: int)
    requires t.InRange(x)
    ensures t.Wrap(x) == x
  {}

  function BigEndian(n: nat, u: nat): (r: bytes)
    ensures |r| == n
  {
    if n == 0 then [] else BigEndian(n - 1, u / 256) + [u % 256]
  }

  function FromBigEndian(b: bytes): nat {
    if b == [] then 0 else FromBigEndian(b[..|b| - 1]) * 256 + b[|b| - 1]
  }

  function Pow256(n: nat): (p: nat)
    ensures p > 0
  {
    if n == 0 then 1 else 256 * Pow256(n - 1)
  }

  lemma {:induction false} BigEndianBack(n: nat, u: nat)
    requires u < Pow256(n)
    ensures FromBigEndian(BigEndian(n, u)) == u
  {
    if n > 0 {
      BigEndianBack(n - 1, u / 256);
      assert BigEndian(n, u)[..n - 1] == BigEndian(n - 1, u / 256);
    }
  }

  lemma QuotientIs(u: nat, d: nat, q: nat)
    requires d > 0 && q * d <= u < q * d + d
    ensures u / d == q
  {
    var r := u - q * d;
    assert u == q * d + r && 0 <= r < d;
    var x := u / d;
    assert u == x * d + u % d;
    assert (x - q) * d == r - u % d;
    NoSmallMultiple(x - q, d);
  }

  lemma NoSmallMultiple(k: int, d: int)
    requires -d < k * d < d
    ensures k == 0
  {}

  lemma DividedTwice(u: nat, p: nat)
    requires p > 0
    ensures u / 256 / p == u / (256 * p)
  {
    var (a, q) := (u / 256, u / 256 / p);
    assert a == q * p + a % p;
    assert q * (256 * p) == 256 * (q * p);
    QuotientIs(u, 256 * p, q);
  }

  /** The most significant byte comes first. */
  lemma {:induction false} BigEndianDigits(n: nat, u: nat, i: nat)
    requires i < n
    ensures BigEndian(n, u)[i] == u / Pow256(n - 1 - i) % 256
  {
    if i < n - 1 {
      BigEndianDigits(n - 1, u / 256, i);
      DividedTwice(u, Pow256(n - 2 - i));
    }
  }

  lemma Powers(t: IntType)
    ensures Pow256(t.Bytes()) == t.Modulus()
  {
    assert Pow256(1) == 256 * Pow256(0);
    assert Pow256(2) == 256 * Pow256(1);
    assert Pow256(3) == 256 * Pow256(2);
    assert Pow256(4) == 256 * Pow256(3);
    assert Pow256(5) == 256 * Pow256(4);
    assert Pow256(6) == 256 * Pow256(5);
    assert Pow256(7) == 256 * Pow256(6);
    assert Pow256(8) == 256 * Pow256(7);
  }

  function EncodeInt(t: IntType, x: int): (r: bytes)
    ensures |r| == t.Bytes()
  {
    BigEndian(t.Bytes(), x % t.Modulus())
  }

  function TakeInt(t: IntType, s: Input): Outcome<int> {
    match Take(s, t.Bytes())
    case Ok(b, next) => Ok(t.Wrap(FromBigEndian(b)), next)
    case Err(e, next) => Err(e, next)
  }

  lemma TakeIntEncoded(t: IntType, x: int, s: Input, more: bytes)
    requires t.InRange(x) && s.rest == EncodeInt(t, x) + more
    ensures TakeInt(t, s) == Ok(x, s.(rest := more))
  {
    Powers(t);
    BigEndianBack(t.Bytes(), x % t.Modulus());
    assert s.rest[..t.Bytes()] == EncodeInt(t, x);
    assert s.rest[t.Bytes()..] == more;
    assert t.Wrap(x % t.Modulus()) == x by { WrapOfMod(t, x); }
  }

  lemma WrapOfMod(t: IntType, x: int)
    requires t.InRange(x)
    ensures t.Wrap(x % t.Modulus()) == x
  {
    var u := if x < 0 then x + t.Modulus() else x;
    RemainderIs(x, t.Modulus(), if x < 0 then -1 else 0, u);
    RemainderIs(u, t.Modulus(), 0, u);
    hide IntType.Modulus;
  }

  lemma RemainderIs(x: int, m: int, q: int, r: int)
    requires 0 <= r < m && x == q * m + r
    ensures x % m == r
  {
    assert x == x / m * m + x % m;
    assert (x / m - q) * m == r - x % m;
    NoSmallMultiple(x / m - q, m);
  }

  // ---- the decoder object ----------------------------------------------------------------

  datatype Result<+T> = Good(value: T) | Bad(error: DecodeError)

  class Decoder {
    const limits: Limits
    var remaining: bytes
    var totalElements: nat
    var allocatedBytes: nat
    var depth: nat

    constructor (input: bytes, limits: Limits)
      ensures this.limits == limits && View() == Input(input, 0, 0, 0)
    {
      this.limits, remaining, totalElements, allocatedBytes, depth := limits, input, 0, 0, 0;
    }

    ghost function View(): Input
      reads this
    {
      Input(remaining, totalElements, allocatedBytes, depth)
    }

    method TakeBytes(n: nat) returns (r: Result<bytes>)
      modifies this
      ensures Same(r, View(), Take(old(View()), n))
    {
      if |remaining| < n {
        return Bad(UnexpectedEof);
      }
      r := Good(remaining[..n]);
      remaining := remaining[n..];
    }

    method ReadVarInt(w: Width) returns (r: Result<int>)
      modifies this
      ensures Same(r, View(), TakeVar(w, old(View())))
    {
      VarFits(w, remaining);
      var reading := VarInt.Parse(w, remaining);
      remaining := remaining[reading.used..];
      match reading {
        case Value(value, _) => r := Good(w.FromPattern(value));
        case Eof(_) => r := Bad(UnexpectedEof);
        case Overlong(_) => r := Bad(InvalidVarintLength);
      }
    }

    method ReadInt(t: IntType) returns (r: Result<int>)
      modifies this
      ensures Same(r, View(), TakeInt(t, old(View())))
    {
      var b := TakeBytes(t.Bytes());
      match b {
        case Good(data) => r := Good(t.Wrap(FromBigEndian(data)));
        case Bad(e) => r := Bad(e);
      }
    }

    method Length(value: int, kind: LimitKind, limit: usize) returns (r: Result<nat>)
      ensures Same(r, View(), CheckedLen(value, kind, limit, View()))
    {
      if value < 0 {
        return Bad(InvalidLength);
      }
      if value > limit {
        return Bad(LimitExceeded(kind, value, limit));
      }
      return Good(value);
    }

    method ChargeForElements(count: nat) returns (r: Result<()>)
      modifies this
      ensures Same(r, View(), ChargeElements(limits, old(View()), count))
    {
      if count > limits.collection {
        return Bad(LimitExceeded(CollectionElements, count, limits.collection));
      }
      var total := totalElements + count;
      if total > USIZE_MAX {
        return Bad(InvalidLength);
      }
      if total > limits.total {
        return Bad(LimitExceeded(TotalElements, total, limits.total));
      }
      totalElements := total;
      return Good(());
    }

    method ChargeForAllocation(amount: nat) returns (r: Result<()>)
      modifies this
      ensures Same(r, View(), ChargeAllocation(limits, old(View()), amount))
    {
      if amount > USIZE_MAX {
        return Bad(InvalidLength);
      }
      var total := allocatedBytes + amount;
      if total > USIZE_MAX {
        return Bad(InvalidLength);
      }
      if total > limits.allocation {
        return Bad(LimitExceeded(AllocationBytes, total, limits.allocation));
      }
      allocatedBytes := total;
      return Good(());
    }
  }

  /** A method's result and the state it leaves are those of the step. */
  ghost predicate Same<T>(r: Result<T>, now: Input, step: Outcome<T>) {
    now == step.next && match step
                        case Ok(value, _) => r == Good(value)
                        case Err(error, _) => r == Bad(error)
  }
}
