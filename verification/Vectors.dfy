/** Packed vectors of void-protocol/src/types.rs: block positions in 64 bits and the
    low-precision vector, whose coordinates are reals here. */
module Vectors {
  import opened Reals
  import opened VarInt
  import opened Wire

  // ---- block positions -----------------------------------------------------------------

  datatype BlockPosition = BlockPosition(x: int, y: int, z: int)

  const BITS12 := 0x1000
  const BITS26 := 0x400_0000
  const BITS38 := 0x40_0000_0000

  /** x in the high 26 bits, z in the next 26, y in the low 12. */
  function PackBlock(p: BlockPosition): (val: int)
    ensures I64.InRange(val)
  {
    I64.Wrap(p.x % BITS26 * BITS38 + p.z % BITS26 * BITS12 + p.y % BITS12)
  }

  /** The low bits of a number read as signed. */
  function SignExtend(v: int, modulus: int): int
    requires modulus > 0
  {
    if v >= modulus / 2 then v - modulus else v
  }

  function UnpackBlock(val: int): BlockPosition {
    BlockPosition(SignExtend(val / BITS38, BITS26),
                  SignExtend(val % BITS12, BITS12),
                  SignExtend(val / BITS12 % BITS26, BITS26))
  }

  predicate BlockInRange(p: BlockPosition) {
    && -(BITS26 / 2) <= p.x < BITS26 / 2
    && -(BITS26 / 2) <= p.z < BITS26 / 2
    && -(BITS12 / 2) <= p.y < BITS12 / 2
  }

  /** What survives of any position: its low bits. */
  function Truncated(p: BlockPosition): BlockPosition {
    BlockPosition(SignExtend(p.x % BITS26, BITS26), SignExtend(p.y % BITS12, BITS12), SignExtend(p.z % BITS26, BITS26))
  }

  lemma Fields(hx: int, z: int, y: int)
    requires 0 <= z < BITS26 && 0 <= y < BITS12
    ensures var val := hx * BITS38 + z * BITS12 + y;
            val / BITS38 == hx && val / BITS12 % BITS26 == z && val % BITS12 == y
  {
    var val := hx * BITS38 + z * BITS12 + y;
    assert BITS38 == BITS26 * BITS12;
    assert val == (hx * BITS26 + z) * BITS12 + y;
    assert val / BITS12 == hx * BITS26 + z;
    assert 0 <= z * BITS12 + y < BITS38;
  }

  /** Reading back keeps the low 26, 26 and 12 bits, so exactly the positions within
      them come back unchanged. */
  lemma BlockRoundTrip(p: BlockPosition)
    ensures UnpackBlock(PackBlock(p)) == Truncated(p)
    ensures UnpackBlock(PackBlock(p)) == p <==> BlockInRange(p)
  {
    var (x, z, y) := (p.x % BITS26, p.z % BITS26, p.y % BITS12);
    var hx := if x >= BITS26 / 2 then x - BITS26 else x;
    assert PackBlock(p) == hx * BITS38 + z * BITS12 + y;
    Fields(hx, z, y);
    InRangeIff(p);
  }

  lemma InRangeIff(p: BlockPosition)
    ensures Truncated(p) == p <==> BlockInRange(p)
  {}

  /** Every 64-bit integer is the packing of the position it unpacks to. */
  lemma EveryWordIsAPosition(val: int)
    requires I64.InRange(val)
    ensures BlockInRange(UnpackBlock(val)) && PackBlock(UnpackBlock(val)) == val
  {
    var (hx, z, y) := (val / BITS38, val / BITS12 % BITS26, val % BITS12);
    Digits(val);
    assert -(BITS26 / 2) <= hx < BITS26 / 2;
    var p := BlockPosition(hx, SignExtend(y, BITS12), SignExtend(z, BITS26));
    assert UnpackBlock(val) == p;
    Residues(hx, z, y);
    assert I64.Wrap(val) == val by { WrapInRange(I64, val); }
    HighBits(hx, z * BITS12 + y, val);
  }

  lemma Digits(val: int)
    ensures val == val / BITS38 * BITS38 + val / BITS12 % BITS26 * BITS12 + val % BITS12
  {
    var q := val / BITS12;
    assert val == q * BITS12 + val % BITS12;
    assert q == q / BITS26 * BITS26 + q % BITS26;
    assert q / BITS26 == val / BITS38;
  }

  lemma Residues(hx: int, z: int, y: int)
    requires -(BITS26 / 2) <= hx < BITS26 / 2 && 0 <= z < BITS26 && 0 <= y < BITS12
    ensures SignExtend(z, BITS26) % BITS26 == z && SignExtend(y, BITS12) % BITS12 == y
    ensures hx % BITS26 == if hx < 0 then hx + BITS26 else hx
  {}

  /** The sign of x is the sign of the word. */
  lemma HighBits(hx: int, low: int, val: int)
    requires val == hx * BITS38 + low && 0 <= low < BITS38 && -(BITS26 / 2) <= hx < BITS26 / 2
    ensures I64.Wrap((if hx < 0 then hx + BITS26 else hx) * BITS38 + low) == val
  {}

  // ---- low-precision vectors --------------------------------------------------------------

  /** A coordinate as it arrives: a number, an infinity, or not a number. */
  datatype Float = Finite(r: real) | Infinite(negative: bool) | NotANumber

  datatype Vec3 = Vec3(x: real, y: real, z: real)

  const ABS_MAX: real := 17179869183.0
  /** The double-precision number the decimal literal stands for, over 2^57: the one
      nearest to 1/32766, and below it. */
  const ABS_MIN: real := 4398314962945.0 / 144115188075855872.0
  const STEPS := 32766

  function Clamped(r: real): real {
    if r < -ABS_MAX then -ABS_MAX else if r > ABS_MAX then ABS_MAX else r
  }

  function Sanitize(v: Float): (r: real)
    ensures -ABS_MAX <= r <= ABS_MAX
  {
    match v
    case NotANumber => 0.0
    case Infinite(negative) => if negative then -ABS_MAX else ABS_MAX
    case Finite(r) => Clamped(r)
  }

  /** What is sent for a coordinate: the nearest number that can be, the outermost one for an
      infinity, and zero for what is no number. */
  lemma SanitizedIsNearest(v: Float, y: real)
    requires -ABS_MAX <= y <= ABS_MAX
    ensures v.Finite? ==> Abs(Sanitize(v) - v.r) <= Abs(y - v.r)
    ensures v.Infinite? ==> if v.negative then Sanitize(v) <= y else y <= Sanitize(v)
    ensures v.NotANumber? ==> Sanitize(v) == 0.0
  {}

  function Chess(v: Vec3): real {
    Max(Max(Abs(v.x), Abs(v.y)), Abs(v.z))
  }

  /** Rounding half away from zero, of a number that is not negative. */
  function Round(r: real): int
    requires r >= 0.0
  {
    (r + 0.5).Floor
  }

  /** A coordinate in [-1, 1] as one of 32767 steps. */
  function Pack(v: real): (q: nat)
    requires -1.0 <= v <= 1.0
    ensures q <= STEPS
  {
    Round((v * 0.5 + 0.5) * 32766.0)
  }

  function Unpack(q: nat): real {
    (if q < STEPS then q else STEPS) as real * 2.0 / 32766.0 - 1.0
  }

  /** The scale's low bits, and a flag that more of it follows. */
  function Markers(scale: nat): (m: nat)
    ensures m < 8
  {
    if scale % 4 != scale then scale % 4 + 4 else scale
  }

  function Packed(m: nat, x: nat, y: nat, z: nat): nat {
    m + 8 * x + 0x4_0000 * y + 0x2_0000_0000 * z
  }

  function SixBytes(buffer: nat): (b: bytes)
    ensures |b| == 6
  {
    [buffer % 256, buffer / 256 % 256] + BigEndian(4, buffer / 65536)
  }

  /** A coordinate of a vector of that scale, as a step. */
  function Step(r: real, scale: nat): (q: nat)
    requires scale > 0 && Abs(r) <= scale as real
    ensures q <= STEPS
  {
    Ratio(r, scale as real);
    Pack(r / scale as real)
  }

  function BufferOf(v: Vec3): nat
    requires ABS_MIN <= Chess(v) <= ABS_MAX
  {
    ScaleBounds(v);
    var scale := ScaleOf(v);
    Packed(Markers(scale), Step(v.x, scale), Step(v.y, scale), Step(v.z, scale))
  }

  /** The smallest whole number no coordinate exceeds. */
  function ScaleOf(v: Vec3): nat
    requires Chess(v) >= ABS_MIN
  {
    Ceil(Chess(v))
  }

  lemma ScaleBounds(v: Vec3)
    requires Chess(v) >= ABS_MIN && Chess(v) <= ABS_MAX
    ensures 1 <= ScaleOf(v) <= 0x3_FFFF_FFFF
    ensures Chess(v) <= ScaleOf(v) as real < Chess(v) + 1.0
    ensures var s := ScaleOf(v) as real; Abs(v.x) <= s && Abs(v.y) <= s && Abs(v.z) <= s
  {
    assert ScaleOf(v) == -((-Chess(v)).Floor);
  }

  lemma Ratio(r: real, s: real)
    requires s > 0.0 && -s <= r <= s
    ensures -1.0 <= r / s <= 1.0 && r / s * s == r
  {}

  lemma ChessOfSanitized(x: Float, y: Float, z: Float)
    ensures Chess(Vec3(Sanitize(x), Sanitize(y), Sanitize(z))) <= ABS_MAX
  {
    hide Clamped;
  }

  function EncodeVec(x: Float, y: Float, z: Float): bytes {
    var v := Vec3(Sanitize(x), Sanitize(y), Sanitize(z));
    if Chess(v) < ABS_MIN then [0]
    else
      ChessOfSanitized(x, y, z);
      var scale := ScaleOf(v);
      SixBytes(BufferOf(v)) + if scale % 4 != scale then EncodeVar(W32, I32.Wrap(scale / 4)) else []
  }

  function FieldX(buffer: nat): nat { buffer / 8 % 0x8000 }
  function FieldY(buffer: nat): nat { buffer / 0x4_0000 % 0x8000 }
  function FieldZ(buffer: nat): nat { buffer / 0x2_0000_0000 % 0x8000 }

  function Coordinate(q: nat, scale: nat): real {
    Unpack(q) * scale as real
  }

  function Scaled(buffer: nat, scale: nat): Vec3 {
    Vec3(Coordinate(FieldX(buffer), scale), Coordinate(FieldY(buffer), scale), Coordinate(FieldZ(buffer), scale))
  }

  /** `maxDepth` is the decoder's limit, which only the scale's extension needs. */
  function TakeVec(maxDepth: nat, s: Input): Outcome<Vec3> {
    match Take(s, 1)
    case Err(e, next) => Err(e, next)
    case Ok(first, s1) =>
      var lowest := first[0];
      if lowest == 0 then Ok(Vec3(0.0, 0.0, 0.0), s1)
      else
        match Take(s1, 1)
        case Err(e, next) => Err(e, next)
        case Ok(second, s2) =>
          match Take(s2, 4)
          case Err(e, next) => Err(e, next)
          case Ok(high, s3) =>
            var buffer := FromBigEndian(high) * 65536 + second[0] as nat * 256 + lowest as nat;
            if lowest / 4 % 2 == 0 then Ok(Scaled(buffer, lowest % 4), s3)
            else if s3.depth >= maxDepth then Err(LimitExceeded(DecodeDepth, s3.depth + 1, maxDepth), s3)
            else
              match TakeVar(W32, s3)
              case Err(e, next) => Err(e, next)
              case Ok(ext, next) => Ok(Scaled(buffer, lowest % 4 + 4 * (if W32.Signed(ext) then W32.Pattern(ext) else 0)), next)
  }

  // ---- bits ------------------------------------------------------------------------------

  lemma PackedFields(m: nat, x: nat, y: nat, z: nat)
    requires m < 8 && x < 0x8000 && y < 0x8000 && z < 0x8000
    ensures var b := Packed(m, x, y, z);
            && b < 0x1_0000_0000_0000 && b % 8 == m
            && FieldX(b) == x && FieldY(b) == y && FieldZ(b) == z
  {
    var b := Packed(m, x, y, z);
    assert b / 8 == x + 0x8000 * (y + 0x8000 * z);
    assert b / 0x4_0000 == y + 0x8000 * z;
    assert b / 0x2_0000_0000 == z;
  }

  lemma SixBytesBack(buffer: nat)
    requires buffer < 0x1_0000_0000_0000
    ensures var b := SixBytes(buffer);
            FromBigEndian(b[2..]) * 65536 + b[1] as nat * 256 + b[0] as nat == buffer && b[0] % 8 == buffer % 8
  {
    var b := SixBytes(buffer);
    assert b[2..] == BigEndian(4, buffer / 65536);
    assert Pow256(4) == 0x1_0000_0000 by {
      assert Pow256(1) == 256 && Pow256(2) == 65536 && Pow256(3) == 0x100_0000;
    }
    BigEndianBack(4, buffer / 65536);
  }

  // ---- the error of a round trip --------------------------------------------------------------

  predicate Near(a: real, b: real, e: real) {
    -e <= a - b <= e
  }

  /** One coordinate: half a step of rounding, scaled. */
  lemma StepError(v: real)
    requires -1.0 <= v <= 1.0
    ensures Pack(v) < 0x8000 && Near(Unpack(Pack(v)), v, 1.0 / 32766.0)
  {
    var w := (v * 0.5 + 0.5) * 32766.0;
    var q := Pack(v);
    assert q as real <= w + 0.5 < q as real + 1.0;
    assert Unpack(q) == q as real * 2.0 / 32766.0 - 1.0;
  }

  lemma ScaledError(u: real, v: real, s: real, r: real)
    requires s > 0.0 && Near(u, v, 1.0 / 32766.0) && v * s == r
    ensures Near(u * s, r, s / 32766.0)
  {
    var d := (u - v) * 32766.0;
    assert -1.0 <= d <= 1.0;
    assert d * s <= s && d * s >= -s;
    assert (u * s - r) * 32766.0 == d * s;
  }

  lemma CoordinateError(r: real, scale: nat)
    requires scale > 0 && Abs(r) <= scale as real
    ensures Near(Coordinate(Step(r, scale), scale), r, scale as real / 32766.0)
  {
    var s := scale as real;
    Ratio(r, s);
    StepError(r / s);
    ScaledError(Unpack(Pack(r / s)), r / s, s, r);
  }

  ghost predicate NearVec(a: Vec3, b: Vec3, e: real) {
    Near(a.x, b.x, e) && Near(a.y, b.y, e) && Near(a.z, b.z, e)
  }

  lemma BufferHolds(v: Vec3)
    requires ABS_MIN <= Chess(v) <= ABS_MAX
    ensures var (b, scale) := (BufferOf(v), ScaleOf(v));
            && b < 0x1_0000_0000_0000 && b % 8 == Markers(scale)
            && NearVec(Scaled(b, scale), v, scale as real / 32766.0)
  {
    ScaleBounds(v);
    hide ScaleOf, Chess, Abs, Step, Unpack, Packed, Coordinate, FieldX, FieldY, FieldZ, Near, Markers;
    var scale := ScaleOf(v);
    PackedFields(Markers(scale), Step(v.x, scale), Step(v.y, scale), Step(v.z, scale));
    CoordinateError(v.x, scale);
    CoordinateError(v.y, scale);
    CoordinateError(v.z, scale);
  }

  lemma SixBytesTaken(maxDepth: nat, buffer: nat, s: Input, more: bytes)
    requires buffer < 0x1_0000_0000_0000 && buffer % 8 > 0 && s.rest == SixBytes(buffer) + more
    ensures var r := TakeVec(maxDepth, s);
            if buffer % 8 < 4 then r == Ok(Scaled(buffer, buffer % 4), s.(rest := more))
            else if s.depth >= maxDepth then r.Err?
            else var ext := TakeVar(W32, s.(rest := more));
                 if ext.Ok? then W32.Signed(ext.value) && r == Ok(Scaled(buffer, buffer % 4 + 4 * W32.Pattern(ext.value)), ext.next)
                 else r == Err(ext.error, ext.next)
  {
    var b := SixBytes(buffer);
    SixBytesBack(buffer);
    LowBits(b[0] as int, buffer);
    SignedVar(s.(rest := more));
    TakeSix(b, s, more);
    hide TakeVar, Scaled, SixBytes, FromBigEndian, Width.Signed, Width.Pattern;
  }

  /** Six bytes, taken one, one and four at a time. */
  lemma TakeSix(b: bytes, s: Input, more: bytes)
    requires |b| == 6 && s.rest == b + more
    ensures Take(s, 1) == Ok([b[0]], s.(rest := b[1..] + more))
    ensures Take(s.(rest := b[1..] + more), 1) == Ok([b[1]], s.(rest := b[2..] + more))
    ensures Take(s.(rest := b[2..] + more), 4) == Ok(b[2..], s.(rest := more))
  {
    assert s.rest[..1] == [b[0]] && s.rest[1..] == b[1..] + more;
    assert (b[1..] + more)[..1] == [b[1]] && (b[1..] + more)[1..] == b[2..] + more;
    assert (b[2..] + more)[..4] == b[2..] && (b[2..] + more)[4..] == more;
  }

  lemma LowBits(lowest: nat, buffer: nat)
    requires lowest % 8 == buffer % 8
    ensures lowest % 4 == buffer % 4 && (lowest / 4 % 2 == 0 <==> buffer % 8 < 4)
  {
    EightsApart(lowest / 8, lowest % 8);
    EightsApart(buffer / 8, buffer % 8);
    assert lowest == 8 * (lowest / 8) + lowest % 8 && buffer == 8 * (buffer / 8) + buffer % 8;
  }

  lemma EightsApart(q: nat, r: nat)
    requires r < 8
    ensures (8 * q + r) % 4 == r % 4 && (8 * q + r) / 4 % 2 == r / 4
  {
    assert 8 * q + r == 4 * (2 * q + r / 4) + r % 4;
  }

  lemma SignedVar(s: Input)
    ensures TakeVar(W32, s).Ok? ==> W32.Signed(TakeVar(W32, s).value)
  {
    VarFits(W32, s.rest);
  }

  lemma ScaleRestored(scale: nat, buffer: nat)
    requires 1 <= scale <= 0x3_FFFF_FFFF && buffer % 8 == Markers(scale)
    ensures scale % 4 == scale ==> buffer % 8 < 4 && buffer % 4 == scale
    ensures scale % 4 != scale ==> buffer % 8 >= 4 && buffer % 4 == scale % 4
    ensures W32.Signed(I32.Wrap(scale / 4)) && W32.Pattern(I32.Wrap(scale / 4)) == scale / 4
    ensures buffer % 8 > 0
  {
    PatternBack(scale / 4);
    assert buffer % 4 == buffer % 8 % 4;
    hide IntType.Wrap, Width.Signed, Width.Pattern;
  }

  lemma PatternBack(u: nat)
    requires u < 0x1_0000_0000
    ensures W32.Signed(I32.Wrap(u)) && W32.Pattern(I32.Wrap(u)) == u
  {}

  /** The clamped vector that is encoded. */
  function Target(x: Float, y: Float, z: Float): (v: Vec3)
    ensures Chess(v) <= ABS_MAX
  {
    ChessOfSanitized(x, y, z);
    Vec3(Sanitize(x), Sanitize(y), Sanitize(z))
  }

  /** A vector that is not tiny comes back with its scale restored exactly, through two
      bits and the varint, and every coordinate within a 32766th of it; whatever
      follows is left. */
  lemma VecRoundTrip(maxDepth: nat, x: Float, y: Float, z: Float, s: Input, more: bytes)
    requires s.rest == EncodeVec(x, y, z) + more && s.depth < maxDepth
    ensures var (v, r) := (Target(x, y, z), TakeVec(maxDepth, s));
            && r.Ok? && r.next == s.(rest := more)
            && (EncodeVec(x, y, z)[0] == 0 <==> Chess(v) < ABS_MIN)
            && (if Chess(v) < ABS_MIN then r.value == Vec3(0.0, 0.0, 0.0)
                else r.value == Scaled(BufferOf(v), ScaleOf(v)) && NearVec(r.value, v, ScaleOf(v) as real / 32766.0))
  {
    hide *;
    var v := Target(x, y, z);
    if Chess(v) < ABS_MIN {
      TinyBack(maxDepth, x, y, z, s, more);
    } else {
      EncodedAs(x, y, z);
      ScaleBounds(v);
      BufferHolds(v);
      SizableBack(maxDepth, BufferOf(v), ScaleOf(v), s, more);
    }
  }

  lemma TinyBack(maxDepth: nat, x: Float, y: Float, z: Float, s: Input, more: bytes)
    requires Chess(Target(x, y, z)) < ABS_MIN && s.rest == EncodeVec(x, y, z) + more
    ensures EncodeVec(x, y, z) == [0] && TakeVec(maxDepth, s) == Ok(Vec3(0.0, 0.0, 0.0), s.(rest := more))
  {
    hide Chess, Sanitize;
    assert EncodeVec(x, y, z) == [0] && s.rest[..1] == [0] && s.rest[1..] == more;
  }

  /** What follows the six bytes of a vector of that scale. */
  function Extension(scale: nat): bytes {
    if scale % 4 != scale then EncodeVar(W32, I32.Wrap(scale / 4)) else []
  }

  lemma SizableBack(maxDepth: nat, b: nat, scale: nat, s: Input, more: bytes)
    requires b < 0x1_0000_0000_0000 && 1 <= scale <= 0x3_FFFF_FFFF && b % 8 == Markers(scale)
    requires s.rest == SixBytes(b) + Extension(scale) + more && s.depth < maxDepth
    ensures TakeVec(maxDepth, s) == Ok(Scaled(b, scale), s.(rest := more))
    ensures SixBytes(b)[0] != 0
  {
    ScaleRestored(scale, b);
    FirstByte(b);
    hide Scaled, SixBytes, TakeVec, Markers, TakeVar, EncodeVar, IntType.Wrap, Width.Signed, Width.Pattern;
    assert s.rest == SixBytes(b) + (Extension(scale) + more);
    SixBytesTaken(maxDepth, b, s, Extension(scale) + more);
    if scale % 4 != scale {
      TakeVarEncoded(W32, I32.Wrap(scale / 4), s.(rest := Extension(scale) + more), more);
      assert scale % 4 + 4 * (scale / 4) == scale;
    } else {
      assert Extension(scale) + more == more;
    }
  }

  lemma EncodedAs(x: Float, y: Float, z: Float)
    requires Chess(Target(x, y, z)) >= ABS_MIN
    ensures var (v, e) := (Target(x, y, z), EncodeVec(x, y, z));
            e == SixBytes(BufferOf(v)) + Extension(ScaleOf(v))
  {
    hide Chess, BufferOf, SixBytes, Abs, ScaleOf, Markers, EncodeVar, Sanitize;
  }

  lemma FirstByte(buffer: nat)
    requires buffer % 8 > 0
    ensures SixBytes(buffer)[0] != 0
  {
    assert SixBytes(buffer)[0] == buffer % 256;
    assert buffer % 256 % 8 == buffer % 8;
  }

  /** A vector below the threshold is within the promised error of zero. */
  lemma TinyVectors(v: Vec3)
    ensures ABS_MIN < 1.0 / 32766.0
    ensures Chess(v) < ABS_MIN ==> NearVec(Vec3(0.0, 0.0, 0.0), v, Ceil(Chess(v)) as real / 32766.0)
  {
    if 0.0 < Chess(v) < ABS_MIN {
      assert (-Chess(v)).Floor == -1;
    }
  }

  /** The promised error: a 32766th of the rounded-up largest coordinate, for every
      vector that can be sent. */
  lemma ErrorBound(maxDepth: nat, x: Float, y: Float, z: Float, s: Input, more: bytes)
    requires s.rest == EncodeVec(x, y, z) + more && s.depth < maxDepth
    ensures var (v, r) := (Target(x, y, z), TakeVec(maxDepth, s));
            r.Ok? && NearVec(r.value, v, Ceil(Chess(v)) as real / 32766.0)
  {
    var v := Target(x, y, z);
    assert Chess(v) >= ABS_MIN ==> ScaleOf(v) == Ceil(Chess(v));
    hide *;
    VecRoundTrip(maxDepth, x, y, z, s, more);
    TinyVectors(v);
  }
}
