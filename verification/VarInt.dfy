/** Variable-length integers of void-codec/src/primitives/vari.rs and vari64.rs:
    unsigned LEB128 (section 7.6 of the DWARF Debugging Information Format
    Version 5) of the two's-complement pattern, in at most five or ten bytes.

    Shifts and masks are written as arithmetic. */
module VarInt {
  type byte = x: int | 0 <= x < 256 witness 0
  type bytes = seq<byte>

  const I32_MAX := 0x7FFF_FFFF

  datatype Width = W32 | W64
  {
    function Modulus(): (m: nat)
      ensures m > 0
    {
      match this
      case W32 => 0x1_0000_0000
      case W64 => 0x1_0000_0000_0000_0000
    }

    function MaxBytes(): (n: nat)
      ensures n > 0
    {
      match this
      case W32 => 5
      case W64 => 10
    }

    /** What the last byte may hold: the bits that are left of the width. */
    function LastBound(): nat {
      match this
      case W32 => 16
      case W64 => 2
    }

    predicate Signed(x: int) {
      -(Modulus() / 2) <= x < Modulus() / 2
    }

    function Pattern(x: int): (u: nat)
      requires Signed(x)
      ensures u < Modulus()
    {
      if x < 0 then x + Modulus() else x
    }

    function FromPattern(u: nat): (x: int)
      requires u < Modulus()
      ensures Signed(x) && Pattern(x) == u
    {
      if u < Modulus() / 2 then u else u - Modulus()
    }
  }

  function Encoded(value: nat): (r: bytes)
    ensures |r| > 0
  {
    if value < 128 then [value] else [value % 128 + 128] + Encoded(value / 128)
  }

  function EncodeVar(w: Width, x: int): (r: bytes)
    requires w.Signed(x)
    ensures |r| > 0
  {
    Encoded(w.Pattern(x))
  }

  /** How reading a number can end; `used` counts the bytes read in every case. */
  datatype Reading = Value(value: nat, used: nat) | Eof(used: nat) | Overlong(used: nat)

  /** Seven bits for each of the i bytes before. */
  function Shift(i: nat): (p: nat)
    ensures p > 0
  {
    if i == 0 then 1 else 128 * Shift(i - 1)
  }

  function Shifted(group: nat, i: nat): nat {
    group * Shift(i)
  }

  /** The decoder's loop from byte i on, with the value read so far. */
  function Read(w: Width, input: bytes, i: nat, value: nat): Reading
    requires i <= w.MaxBytes() && i <= |input|
    decreases w.MaxBytes() - i
  {
    if i == w.MaxBytes() then Overlong(i)
    else if i == |input| then Eof(i)
    else if i == w.MaxBytes() - 1 && input[i] >= w.LastBound() then Overlong(i + 1)
    else
      var sum := value + Shifted(input[i] % 128, i);
      if input[i] < 128 then Value(sum, i + 1) else Read(w, input, i + 1, sum)
  }

  function ReadVar(w: Width, input: bytes): Reading {
    Read(w, input, 0, 0)
  }

  /** The encoder's loop. */
  method WriteVar(w: Width, x: int) returns (buf: bytes)
    requires w.Signed(x)
    ensures buf == EncodeVar(w, x)
  {
    hide Width.Modulus, Width.Pattern;
    var value := w.Pattern(x);
    buf := [];
    while true
      invariant EncodeVar(w, x) == buf + Encoded(value)
      decreases value
    {
      assert value < 128 <==> value / 128 == 0;
      assert value >= 128 ==> Encoded(value) == [value % 128 + 128] + Encoded(value / 128);
      var b := value % 128;
      value := value / 128;
      if value != 0 {
        b := b + 128;
      }
      buf := buf + [b];
      if value == 0 {
        return;
      }
    }
  }

  /** The decoder's loop. */
  method Parse(w: Width, input: bytes) returns (r: Reading)
    ensures r == ReadVar(w, input)
  {
    hide Shifted;
    var value := 0;
    for i := 0 to w.MaxBytes()
      invariant i <= |input| && value >= 0
      invariant ReadVar(w, input) == Read(w, input, i, value)
    {
      if i == |input| {
        return Eof(i);
      }
      var b := input[i];
      if i == w.MaxBytes() - 1 && b >= w.LastBound() {
        return Overlong(i + 1);
      }
      value := value + Shifted(b % 128, i);
      if b < 128 {
        return Value(value, i + 1);
      }
    }
    return Overlong(w.MaxBytes());
  }

  // ---- round trip -----------------------------------------------------------------

  /** What values are left to encode after i bytes of a number of the width. */
  predicate LeftOver(w: Width, i: nat, value: nat) {
    i < w.MaxBytes() && Shifted(value, i) < w.Modulus()
  }

  lemma ShiftedMonotone(a: nat, b: nat, i: nat)
    ensures a <= b ==> Shifted(a, i) <= Shifted(b, i)
  {
    if a <= b {
      assert b * Shift(i) == a * Shift(i) + (b - a) * Shift(i);
    }
  }

  lemma ShiftedSum(a: nat, b: nat, i: nat)
    ensures Shifted(a + b, i) == Shifted(a, i) + Shifted(b, i)
  {}

  lemma ShiftedNext(a: nat, i: nat)
    ensures Shifted(a, i + 1) == Shifted(128 * a, i)
  {
    assert Shift(i + 1) == 128 * Shift(i);
    assert a * (128 * Shift(i)) == 128 * a * Shift(i);
  }

  lemma Shifts()
    ensures Shift(1) == 128 && Shift(2) == 0x4000 && Shift(3) == 0x20_0000 && Shift(4) == 0x1000_0000
    ensures Shift(5) == 0x8_0000_0000 && Shift(6) == 0x400_0000_0000 && Shift(7) == 0x2_0000_0000_0000
    ensures Shift(8) == 0x100_0000_0000_0000 && Shift(9) == 0x8000_0000_0000_0000
  {
    assert Shift(1) == 128 * Shift(0);
    assert Shift(2) == 128 * Shift(1);
    assert Shift(3) == 128 * Shift(2);
    assert Shift(4) == 128 * Shift(3);
    assert Shift(5) == 128 * Shift(4);
    assert Shift(6) == 128 * Shift(5);
    assert Shift(7) == 128 * Shift(6);
    assert Shift(8) == 128 * Shift(7);
    assert Shift(9) == 128 * Shift(8);
  }

  /** The last byte holds exactly what the width leaves. */
  lemma LastByte(w: Width)
    ensures Shifted(w.LastBound(), w.MaxBytes() - 1) == w.Modulus()
    ensures forall i: nat :: i < w.MaxBytes() ==> Shifted(1, i) <= w.Modulus()
    ensures Shifted(0, 0) == 0 && Shifted(1, 0) == 1
  {
    Shifts();
  }

  lemma LeftOverNext(w: Width, i: nat, value: nat)
    requires LeftOver(w, i, value) && value >= 128
    ensures LeftOver(w, i + 1, value / 128)
  {
    hide Shifted;
    LastByte(w);
    ShiftedMonotone(w.LastBound(), value, i);
    ShiftedNext(value / 128, i);
    ShiftedMonotone(128 * (value / 128), value, i);
  }

  lemma ReadStep(w: Width, input: bytes, i: nat, value: nat)
    requires i < w.MaxBytes() && i < |input| && (i == w.MaxBytes() - 1 ==> input[i] < w.LastBound())
    ensures var sum := value + Shifted(input[i] % 128, i);
            Read(w, input, i, value) == if input[i] < 128 then Value(sum, i + 1) else Read(w, input, i + 1, sum)
  {
    hide Shifted;
  }

  lemma {:induction false} ReadEncoded(w: Width, before: bytes, value: nat, rest: bytes, sum: nat)
    requires LeftOver(w, |before|, value)
    ensures Read(w, before + Encoded(value) + rest, |before|, sum)
            == Value(sum + Shifted(value, |before|), |before| + |Encoded(value)|)
    decreases value
  {
    hide Shifted, Read;
    var i := |before|;
    var input := before + Encoded(value) + rest;
    assert input[i] == Encoded(value)[0];
    LastByte(w);
    ShiftedMonotone(w.LastBound(), value, i);
    if value >= 128 { LeftOverNext(w, i, value); }
    ReadStep(w, input, i, sum);
    if value >= 128 {
      var (b, q) := (value % 128 + 128, value / 128);
      assert input == (before + [b]) + Encoded(q) + rest;
      ReadEncoded(w, before + [b], q, rest, sum + Shifted(b % 128, i));
      ShiftedNext(q, i);
      ShiftedSum(value % 128, 128 * q, i);
    }
  }

  /** Any integer of the width, followed by anything, is read back exactly. */
  lemma RoundTrip(w: Width, x: int, rest: bytes)
    requires w.Signed(x)
    ensures ReadVar(w, EncodeVar(w, x) + rest) == Value(w.Pattern(x), |EncodeVar(w, x)|)
    ensures |EncodeVar(w, x)| <= w.MaxBytes()
    ensures w.FromPattern(w.Pattern(x)) == x
  {
    var u := w.Pattern(x);
    assert [] + Encoded(u) + rest == Encoded(u) + rest;
    assert Shifted(u, 0) == u;
    ReadEncoded(w, [], u, rest, 0);
    LastByte(w);
    ReadIsBounded(w, Encoded(u) + rest, 0, 0);
  }

  // ---- every input ------------------------------------------------------------------

  /** Whatever the input: no more than the allowed bytes are read, and a value fits the width. */
  lemma {:induction false} ReadIsBounded(w: Width, input: bytes, i: nat, value: nat)
    requires i <= w.MaxBytes() && i <= |input| && (i < w.MaxBytes() ==> value < Shifted(1, i))
    ensures var r := Read(w, input, i, value);
            && r.used <= w.MaxBytes() && r.used <= |input|
            && (r.Value? ==> r.value < w.Modulus() && r.used > i)
    decreases w.MaxBytes() - i
  {
    hide Shifted, Width.Modulus;
    if i < w.MaxBytes() && i < |input| && !(i == w.MaxBytes() - 1 && input[i] >= w.LastBound()) {
      var d := input[i] % 128;
      var sum := value + Shifted(d, i);
      LastByte(w);
      ShiftedSum(1, 127, i);
      ShiftedNext(1, i);
      ShiftedMonotone(d, 127, i);
      if i == w.MaxBytes() - 1 {
        ShiftedSum(1, w.LastBound() - 1, i);
        ShiftedMonotone(d, w.LastBound() - 1, i);
      } else if input[i] >= 128 {
        ReadIsBounded(w, input, i + 1, sum);
      }
    }
  }

  /** The number a sequence of groups stands for, least significant group first. */
  function Denoted(groups: bytes): nat {
    if groups == [] then 0 else groups[0] % 128 + 128 * Denoted(groups[1..])
  }

  /** Continuation bits on all bytes but the last. */
  predicate Terminated(groups: bytes) {
    groups != [] && groups[|groups| - 1] < 128 && forall k :: 0 <= k < |groups| - 1 ==> groups[k] >= 128
  }

  lemma {:induction false} ReadDenotes(w: Width, input: bytes, i: nat, sum: nat)
    requires i <= w.MaxBytes() && i <= |input| && Read(w, input, i, sum).Value?
    ensures var r := Read(w, input, i, sum);
            && i < r.used <= |input| && Terminated(input[i..r.used])
            && r.value == sum + Shifted(Denoted(input[i..r.used]), i)
    decreases w.MaxBytes() - i
  {
    hide Shifted;
    var (d, r) := (input[i] % 128, Read(w, input, i, sum));
    if input[i] < 128 {
      assert input[i..i + 1] == [input[i]];
      assert Denoted([input[i]]) == d;
    } else {
      ReadDenotes(w, input, i + 1, sum + Shifted(d, i));
      var tail := input[i + 1..r.used];
      assert input[i..r.used] == [input[i]] + tail;
      ShiftedNext(Denoted(tail), i);
      ShiftedSum(d, 128 * Denoted(tail), i);
    }
  }

  lemma {:induction false} EncodedIsShortest(groups: bytes)
    requires Terminated(groups)
    ensures |Encoded(Denoted(groups))| <= |groups|
    ensures |Encoded(Denoted(groups))| == |groups| ==> groups == Encoded(Denoted(groups))
  {
    var tail := groups[1..];
    if tail == [] {
      assert groups == [groups[0]];
    } else {
      EncodedIsShortest(tail);
      var value := Denoted(groups);
      assert value / 128 == Denoted(tail) && value % 128 == groups[0] % 128;
      assert groups == [groups[0]] + tail;
    }
  }

  /** Among all the byte strings the decoder accepts for a value the encoder writes
      the shortest, which is the only one of its length. */
  lemma EncoderIsCanonical(w: Width, input: bytes)
    requires ReadVar(w, input).Value?
    ensures var r := ReadVar(w, input);
            && r.value < w.Modulus() && r.used <= w.MaxBytes() && r.used <= |input|
            && |EncodeVar(w, w.FromPattern(r.value))| <= r.used
            && (|EncodeVar(w, w.FromPattern(r.value))| == r.used ==> input[..r.used] == EncodeVar(w, w.FromPattern(r.value)))
  {
    LastByte(w);
    ReadIsBounded(w, input, 0, 0);
    ReadDenotes(w, input, 0, 0);
    assert Shifted(Denoted(input[0..ReadVar(w, input).used]), 0) == Denoted(input[0..ReadVar(w, input).used]);
    EncodedIsShortest(input[..ReadVar(w, input).used]);
  }
}
