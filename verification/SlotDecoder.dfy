/** The slot codec as it runs: loops that push components and ids while the decoder
    is charged, and an encoder that appends to a buffer. */
module SlotDecoder {
  import opened VarInt
  import opened Wire
  import opened Schema
  import opened Slots
  import opened Generated
  import opened Sequences

  method PushNumber(x: int, buf: Buffer)
    requires W32.Signed(x)
    modifies buf
    ensures buf.data == old(buf.data) + EncodeNumber(x)
  {
    var b := WriteVar(W32, x);
    buf.Extend(b);
  }

  method PushSlot<N(!new)>(k: Items<N>, v: Slot<N>, buf: Buffer)
    requires Sized(v)
    modifies buf
    ensures buf.data == old(buf.data) + EncodeSlot(k, v)
  {
    hide EncodePatch, EncodeNumber;
    PushNumber(v.count, buf);
    if v.count <= 0 {
      return;
    }
    PushNumber(v.item, buf);
    PushPatch(k, v.add, v.remove, buf);
  }

  method PushPatch<N(!new)>(k: Items<N>, add: seq<Component<N>>, remove: seq<int>, buf: Buffer)
    requires AllSigned(remove)
    requires forall i :: 0 <= i < |add| ==> W32.Signed(add[i].TypeId()) && (add[i].Raw? || Slots.Plain(add[i]))
    modifies buf
    ensures buf.data == old(buf.data) + EncodePatch(k, add, remove)
  {
    hide EncodeNumber, EncodeBody, EncodeLength;
    buf.Extend(EncodeLength(|add|));
    buf.Extend(EncodeLength(|remove|));
    ghost var heads := buf.data;
    for i := 0 to |add|
      invariant buf.data + EncodeAdds(k, add[i..]) == heads + EncodeAdds(k, add)
    {
      assert add[i..][0] == add[i] && add[i..][1..] == add[i + 1..];
      PushNumber(add[i].TypeId(), buf);
      buf.Extend(EncodeBody(k, add[i]));
    }
    ghost var added := buf.data;
    assert added == heads + EncodeAdds(k, add);
    for i := 0 to |remove|
      invariant buf.data + EncodeRemoves(remove[i..]) == added + EncodeRemoves(remove)
    {
      assert remove[i..][0] == remove[i] && remove[i..][1..] == remove[i + 1..];
      PushNumber(remove[i], buf);
    }
    assert buf.data == added + EncodeRemoves(remove);
  }

  // ---- decoding --------------------------------------------------------------------------

  method NextNumber<N>(k: Items<N>, d: Decoder) returns (r: Result<int>)
    requires d.limits == k.limits.limits
    modifies d
    ensures Same(r, d.View(), TakeNumber(k, old(d.View())))
  {
    if d.depth >= d.limits.depth {
      return Bad(LimitExceeded(DecodeDepth, d.depth + 1, d.limits.depth));
    }
    r := d.ReadVarInt(W32);
  }

  method NextNbt<N>(k: Items<N>, d: Decoder) returns (r: Result<N>)
    requires d.limits == k.limits.limits
    modifies d
    ensures Same(r, d.View(), TakeNbt(k, old(d.View())))
  {
    if d.depth >= d.limits.depth {
      return Bad(LimitExceeded(DecodeDepth, d.depth + 1, d.limits.depth));
    }
    var outcome := k.decode(Input(d.remaining, d.totalElements, d.allocatedBytes, d.depth + 1));
    d.remaining, d.totalElements, d.allocatedBytes := outcome.next.rest, outcome.next.elements, outcome.next.heap;
    r := match outcome
         case Ok(v, _) => Good(v)
         case Err(e, _) => Bad(e);
  }

  method NextComponent<N>(k: Items<N>, d: Decoder) returns (r: Result<Component<N>>)
    requires d.limits == k.limits.limits
    modifies d
    ensures Same(r, d.View(), TakeComponent(k, old(d.View())))
  {
    hide TakeNumber, TakeNbt;
    var id := NextNumber(k, d);
    if id.Bad? {
      return Bad(id.error);
    }
    if !Curated(id.value) {
      return Bad(InvalidLength);
    }
    if id.value == CUSTOM_DATA {
      var nbt := NextNbt(k, d);
      r := if nbt.Good? then Good(CustomData(nbt.value)) else Bad(nbt.error);
    } else {
      var n := NextNumber(k, d);
      r := if n.Good? then Good(NumberComponent(id.value, n.value)) else Bad(n.error);
    }
  }

  /** What is left of the two loops after some of their turns. */
  ghost predicate AddsGoOn<N>(k: Items<N>, n: nat, s: Input, got: seq<Component<N>>, now: Input)
    requires |got| <= n
  {
    var (all, rest) := (TakeAdds(k, n, s), TakeAdds(k, n - |got|, now));
    && all.next == rest.next
    && (if rest.Ok? then all.Ok? && all.value == got + rest.value else all == Err(rest.error, rest.next))
  }

  ghost predicate RemovesGoOn<N>(k: Items<N>, n: nat, s: Input, got: seq<int>, now: Input)
    requires |got| <= n
  {
    var (all, rest) := (TakeRemoves(k, n, s), TakeRemoves(k, n - |got|, now));
    && all.next == rest.next
    && (if rest.Ok? then all.Ok? && all.value == got + rest.value else all == Err(rest.error, rest.next))
  }

  lemma Nothing<T>(rest: seq<T>)
    ensures [] + rest == rest && rest + [] == rest
  {}

  lemma AddsStep<N>(k: Items<N>, n: nat, s: Input, got: seq<Component<N>>, now: Input)
    requires |got| < n && AddsGoOn(k, n, s, got, now)
    ensures var x := TakeComponent(k, now);
            if x.Ok? then AddsGoOn(k, n, s, got + [x.value], x.next) else TakeAdds(k, n, s) == Err(x.error, x.next)
  {
    hide TakeComponent;
    var x := TakeComponent(k, now);
    if x.Ok? {
      var rest := TakeAdds(k, n - |got| - 1, x.next);
      if rest.Ok? { Regroup(got, [x.value], rest.value); }
    }
  }

  lemma RemovesStep<N>(k: Items<N>, n: nat, s: Input, got: seq<int>, now: Input)
    requires |got| < n && RemovesGoOn(k, n, s, got, now)
    ensures var x := TakeNumber(k, now);
            if x.Ok? then RemovesGoOn(k, n, s, got + [x.value], x.next) else TakeRemoves(k, n, s) == Err(x.error, x.next)
  {
    hide TakeNumber;
    var x := TakeNumber(k, now);
    if x.Ok? {
      var rest := TakeRemoves(k, n - |got| - 1, x.next);
      if rest.Ok? { Regroup(got, [x.value], rest.value); }
    }
  }

  lemma LoopsStart<N>(k: Items<N>, n: nat, s: Input)
    ensures AddsGoOn(k, n, s, [], s) && RemovesGoOn(k, n, s, [], s)
  {
    hide TakeAdds, TakeRemoves;
    var (a, b) := (TakeAdds(k, n, s), TakeRemoves(k, n, s));
    if a.Ok? { Nothing(a.value); }
    if b.Ok? { Nothing(b.value); }
  }

  lemma AddsEnd<N>(k: Items<N>, s: Input, got: seq<Component<N>>, now: Input)
    requires AddsGoOn(k, |got|, s, got, now)
    ensures TakeAdds(k, |got|, s) == Ok(got, now)
  {
    assert TakeAdds(k, 0, now) == Ok([], now);
    Nothing(got);
    hide TakeAdds;
  }

  lemma RemovesEnd<N>(k: Items<N>, s: Input, got: seq<int>, now: Input)
    requires RemovesGoOn(k, |got|, s, got, now)
    ensures TakeRemoves(k, |got|, s) == Ok(got, now)
  {
    assert TakeRemoves(k, 0, now) == Ok([], now);
    Nothing(got);
    hide TakeRemoves;
  }

  method NextAdds<N>(k: Items<N>, n: nat, d: Decoder) returns (r: Result<seq<Component<N>>>)
    requires d.limits == k.limits.limits
    modifies d
    ensures Same(r, d.View(), TakeAdds(k, n, old(d.View())))
  {
    hide TakeComponent, TakeAdds, AddsGoOn, RemovesGoOn;
    ghost var s := d.View();
    var got: seq<Component<N>> := [];
    LoopsStart(k, n, s);
    for i := 0 to n
      invariant |got| == i && AddsGoOn(k, n, s, got, d.View())
    {
      AddsStep(k, n, s, got, d.View());
      var x := NextComponent(k, d);
      if x.Bad? {
        return Bad(x.error);
      }
      got := got + [x.value];
    }
    AddsEnd(k, s, got, d.View());
    r := Good(got);
  }

  method NextRemoves<N>(k: Items<N>, n: nat, d: Decoder) returns (r: Result<seq<int>>)
    requires d.limits == k.limits.limits
    modifies d
    ensures Same(r, d.View(), TakeRemoves(k, n, old(d.View())))
  {
    hide TakeNumber, TakeRemoves, AddsGoOn, RemovesGoOn;
    ghost var s := d.View();
    var got: seq<int> := [];
    LoopsStart(k, n, s);
    for i := 0 to n
      invariant |got| == i && RemovesGoOn(k, n, s, got, d.View())
    {
      RemovesStep(k, n, s, got, d.View());
      var x := NextNumber(k, d);
      if x.Bad? {
        return Bad(x.error);
      }
      got := got + [x.value];
    }
    RemovesEnd(k, s, got, d.View());
    r := Good(got);
  }

  method NextPatch<N>(k: Items<N>, d: Decoder) returns (r: Result<(seq<Component<N>>, seq<int>)>)
    requires d.limits == k.limits.limits
    modifies d
    ensures Same(r, d.View(), TakePatch(k, old(d.View())))
  {
    hide TakeNumber, TakeAdds, TakeRemoves, ChargeElements, ChargeAllocation;
    var rawAdds := NextNumber(k, d);
    if rawAdds.Bad? {
      return Bad(rawAdds.error);
    }
    var rawRemoves := NextNumber(k, d);
    if rawRemoves.Bad? {
      return Bad(rawRemoves.error);
    }
    var adds := d.Length(rawAdds.value, CollectionElements, d.limits.collection);
    if adds.Bad? {
      return Bad(adds.error);
    }
    var removes := d.Length(rawRemoves.value, CollectionElements, d.limits.collection);
    if removes.Bad? {
      return Bad(removes.error);
    }
    var charged := d.ChargeForElements(adds.value);
    if charged.Bad? {
      return Bad(charged.error);
    }
    charged := d.ChargeForElements(removes.value);
    if charged.Bad? {
      return Bad(charged.error);
    }
    charged := d.ChargeForAllocation(adds.value * k.size + removes.value * 4);
    if charged.Bad? {
      return Bad(charged.error);
    }
    var add := NextAdds(k, adds.value, d);
    if add.Bad? {
      return Bad(add.error);
    }
    var remove := NextRemoves(k, removes.value, d);
    if remove.Bad? {
      return Bad(remove.error);
    }
    return Good((add.value, remove.value));
  }

  method NextSlot<N>(k: Items<N>, d: Decoder) returns (r: Result<Slot<N>>)
    requires d.limits == k.limits.limits
    modifies d
    ensures Same(r, d.View(), TakeSlot(k, old(d.View())))
  {
    hide TakeNumber, TakePatch;
    var count := NextNumber(k, d);
    if count.Bad? {
      return Bad(count.error);
    }
    if count.value <= 0 {
      return Good(Slot(0, 0, [], []));
    }
    var item := NextNumber(k, d);
    if item.Bad? {
      return Bad(item.error);
    }
    var patch := NextPatch(k, d);
    if patch.Bad? {
      return Bad(patch.error);
    }
    return Good(Slot(count.value, item.value, patch.value.0, patch.value.1));
  }
}
