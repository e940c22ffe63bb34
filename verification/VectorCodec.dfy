/** The packed vectors as they run: an encoder that appends to a buffer and a decoder
    that is advanced. */
module VectorCodec {
  import opened VarInt
  import opened Wire
  import opened Vectors
  import opened Generated
  import opened Sequences

  method PushBlock(p: BlockPosition, buf: Buffer)
    modifies buf
    ensures buf.data == old(buf.data) + EncodeInt(I64, PackBlock(p))
  {
    buf.Extend(EncodeInt(I64, PackBlock(p)));
  }

  /** The integer is read one level down. */
  function TakeBlock(maxDepth: nat, s: Input): Outcome<BlockPosition> {
    if s.depth >= maxDepth then Err(LimitExceeded(DecodeDepth, s.depth + 1, maxDepth), s)
    else
      match TakeInt(I64, s)
      case Err(e, next) => Err(e, next)
      case Ok(val, next) => Ok(UnpackBlock(val), next)
  }

  method NextBlock(d: Decoder) returns (r: Result<BlockPosition>)
    modifies d
    ensures Same(r, d.View(), TakeBlock(d.limits.depth, old(d.View())))
  {
    if d.depth >= d.limits.depth {
      return Bad(LimitExceeded(DecodeDepth, d.depth + 1, d.limits.depth));
    }
    var val := d.ReadInt(I64);
    match val {
      case Bad(e) => r := Bad(e);
      case Good(v) =>
        var (x, z, y) := (v / BITS38, v / BITS12 % BITS26, v % BITS12);
        if x >= BITS26 / 2 {
          x := x - BITS26;
        }
        if z >= BITS26 / 2 {
          z := z - BITS26;
        }
        if y >= BITS12 / 2 {
          y := y - BITS12;
        }
        r := Good(BlockPosition(x, y, z));
    }
  }

  /** Positions within 26, 26 and 12 bits, and no others, are decoded from their encoding. */
  lemma BlockIsReadBack(maxDepth: nat, p: BlockPosition, s: Input, more: bytes)
    requires s.rest == EncodeInt(I64, PackBlock(p)) + more && s.depth < maxDepth
    ensures var r := TakeBlock(maxDepth, s);
            r.Ok? && r.next == s.(rest := more) && (r.value == p <==> BlockInRange(p))
  {
    TakeIntEncoded(I64, PackBlock(p), s, more);
    BlockRoundTrip(p);
    hide PackBlock, UnpackBlock, TakeInt;
  }

  method PushVec(x: Float, y: Float, z: Float, buf: Buffer)
    modifies buf
    ensures buf.data == old(buf.data) + EncodeVec(x, y, z)
  {
    var v := Target(x, y, z);
    if Chess(v) < ABS_MIN {
      buf.Push(0);
      return;
    }
    EncodedAs(x, y, z);
    ScaleBounds(v);
    hide *;
    PushSix(SixBytes(BufferOf(v)), buf);
    PushExtension(ScaleOf(v), buf);
    Regroup(old(buf.data), SixBytes(BufferOf(v)), Extension(ScaleOf(v)));
  }

  method PushExtension(scale: nat, buf: Buffer)
    requires scale <= 0x3_FFFF_FFFF
    modifies buf
    ensures buf.data == old(buf.data) + Extension(scale)
  {
    hide EncodeVar, Width.Pattern;
    if scale % 4 != scale {
      PatternBack(scale / 4);
      var ext := WriteVar(W32, I32.Wrap(scale / 4));
      buf.Extend(ext);
    }
  }

  /** One byte, one byte and four. */
  method PushSix(b: bytes, buf: Buffer)
    requires |b| == 6
    modifies buf
    ensures buf.data == old(buf.data) + b
  {
    buf.Push(b[0]);
    buf.Push(b[1]);
    buf.Extend(b[2..]);
    assert b == [b[0]] + [b[1]] + b[2..];
  }

  method NextVec(d: Decoder) returns (r: Result<Vec3>)
    modifies d
    ensures Same(r, d.View(), TakeVec(d.limits.depth, old(d.View())))
  {
    var first := d.TakeBytes(1);
    if first.Bad? {
      return Bad(first.error);
    }
    var lowest := first.value[0];
    if lowest == 0 {
      return Good(Vec3(0.0, 0.0, 0.0));
    }
    var second := d.TakeBytes(1);
    if second.Bad? {
      return Bad(second.error);
    }
    var high := d.TakeBytes(4);
    if high.Bad? {
      return Bad(high.error);
    }
    var buffer := FromBigEndian(high.value) * 65536 + second.value[0] as nat * 256 + lowest as nat;
    var scale: nat := lowest as nat % 4;
    if lowest / 4 % 2 == 1 {
      var ext := NextExtension(d);
      if ext.Bad? {
        return Bad(ext.error);
      }
      scale := scale + 4 * W32.Pattern(ext.value);
    }
    r := Good(Scaled(buffer, scale));
  }

  /** One level down for the rest of the scale. */
  method NextExtension(d: Decoder) returns (r: Result<int>)
    modifies d
    ensures r.Good? ==> W32.Signed(r.value)
    ensures if old(d.depth) >= d.limits.depth
            then r == Bad(LimitExceeded(DecodeDepth, old(d.depth) + 1, d.limits.depth)) && d.View() == old(d.View())
            else Same(r, d.View(), TakeVar(W32, old(d.View())))
  {
    if d.depth >= d.limits.depth {
      return Bad(LimitExceeded(DecodeDepth, d.depth + 1, d.limits.depth));
    }
    SignedVar(d.View());
    r := d.ReadVarInt(W32);
  }
}
