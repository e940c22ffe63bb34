/** Decoding a slot from any bytes at all, under the decoder's budgets. */
module SlotInputs {
  import opened VarInt
  import opened Wire
  import opened Schema
  import opened SchemaLaws
  import opened SchemaInputs
  import opened Charges
  import opened Slots

  // ---- what is assumed of NBT -----------------------------------------------------------

  /** On any input the NBT decoder keeps to the front and within the limits, and for a
      value charges its cost. */
  ghost predicate NbtKeeps<N(!new)>(k: Items<N>) {
    forall s: Input {:trigger NbtStep(k, s)} :: Bounded(k.limits, s) ==> NbtStep(k, s)
  }

  ghost predicate NbtStep<N>(k: Items<N>, s: Input) {
    var r := k.decode(s);
    && Bounded(k.limits, r.next) && Advances(s, r.next)
    && (r.Ok? ==> Charged(k.limits, s, r.next, k.cost(r.value)))
  }

  // ---- charges along the input ------------------------------------------------------------

  ghost function NbtCharges<N(!new)>(k: Items<N>, s: Input): Sum
    requires NbtKeeps(k) && Bounded(k.limits, s)
  {
    if s.depth >= k.limits.limits.depth then NoCharge
    else
      assert NbtStep(k, s.(depth := s.depth + 1));
      var next := k.decode(s.(depth := s.depth + 1)).next;
      Sum(next.elements - s.elements, next.heap - s.heap)
  }

  ghost function ComponentCharges<N(!new)>(k: Items<N>, s: Input): Sum
    requires NbtKeeps(k) && Bounded(k.limits, s)
  {
    var id := TakeNumber(k, s);
    if id.Ok? && id.value == CUSTOM_DATA then NbtCharges(k, id.next) else NoCharge
  }

  ghost function AddsCharges<N(!new)>(k: Items<N>, n: nat, s: Input): Sum
    requires NbtKeeps(k) && Bounded(k.limits, s)
  {
    if n == 0 then NoCharge
    else
      ComponentStep(k, s);
      var x := TakeComponent(k, s);
      And(ComponentCharges(k, s), if x.Ok? then AddsCharges(k, n - 1, x.next) else NoCharge)
  }

  function ListBytes<N>(k: Items<N>, a: nat, r: nat): nat {
    a * k.size + r * 4
  }

  /** Both lists' elements, one after the other, then the bytes of both, then the components. */
  ghost function ListsCharges<N(!new)>(k: Items<N>, a: nat, r: nat, s: Input): Sum
    requires NbtKeeps(k) && Bounded(k.limits, s)
  {
    var (c, total) := (k.limits, ListBytes(k, a, r));
    var s1 := s.(elements := s.elements + a);
    if !TakesElements(c, s, a) then NoCharge
    else if !TakesElements(c, s1, r) then Sum(a, 0)
    else if !TakesBytes(c, s, total) then Sum(a + r, 0)
    else And(Sum(a + r, total), AddsCharges(k, a, s1.(elements := s1.elements + r, heap := s.heap + total)))
  }

  ghost function PatchCharges<N(!new)>(k: Items<N>, s: Input): Sum
    requires NbtKeeps(k) && Bounded(k.limits, s)
  {
    NumberStep(k, s);
    var (c, a) := (k.limits.limits.collection, TakeNumber(k, s));
    if a.Err? then NoCharge
    else
      NumberStep(k, a.next);
      var r := TakeNumber(k, a.next);
      if r.Ok? && 0 <= a.value <= c && 0 <= r.value <= c then ListsCharges(k, a.value, r.value, r.next) else NoCharge
  }

  ghost function SlotCharges<N(!new)>(k: Items<N>, s: Input): Sum
    requires NbtKeeps(k) && Bounded(k.limits, s)
  {
    NumberStep(k, s);
    var count := TakeNumber(k, s);
    if count.Err? || count.value <= 0 then NoCharge
    else
      NumberStep(k, count.next);
      var item := TakeNumber(k, count.next);
      if item.Ok? then PatchCharges(k, item.next) else NoCharge
  }

  // ---- the steps ----------------------------------------------------------------------------

  /** The input shortened at the front, the totals grown by the sum, within the limits. */
  ghost predicate Kept(c: Codec, s: Input, next: Input, sum: Sum) {
    Bounded(c, next) && Advances(s, next) && Ledger(s, next, sum)
  }

  lemma KeptChain(c: Codec, a: Input, b: Input, d: Input, x: Sum, y: Sum)
    requires Kept(c, a, b, x) && Kept(c, b, d, y)
    ensures Kept(c, a, d, And(x, y))
  {
    AdvanceChain(a, b, d);
    hide Suffix;
  }

  lemma ChargedChain(c: Codec, a: Input, b: Input, d: Input, x: Bill, y: Bill)
    requires Charged(c, a, b, x) && Charged(c, b, d, y)
    ensures Charged(c, a, d, Plus(x, y))
  {}

  lemma NumberStep<N>(k: Items<N>, s: Input)
    requires Bounded(k.limits, s)
    ensures var r := TakeNumber(k, s);
            && Kept(k.limits, s, r.next, NoCharge) && r.next == s.(rest := r.next.rest)
            && (r.Ok? ==> W32.Signed(r.value) && Charged(k.limits, s, r.next, OneDown))
  {
    TakeVarAdvances(W32, s);
    SuffixSelf(s.rest);
    hide TakeVar, Suffix;
  }

  lemma NbtKept<N(!new)>(k: Items<N>, s: Input)
    requires NbtKeeps(k) && Bounded(k.limits, s)
    ensures var r := TakeNbt(k, s);
            && Kept(k.limits, s, r.next, NbtCharges(k, s))
            && (r.Ok? ==> Charged(k.limits, s, r.next, Down(k.cost(r.value))))
  {
    var at := s.(depth := s.depth + 1);
    if s.depth < k.limits.limits.depth {
      assert NbtStep(k, at);
      NbtCost(k, s, at);
      NbtNext(k, s, at);
    } else {
      NothingKept(k.limits, s);
    }
    hide NbtKeeps, NbtStep, Kept, Charged;
  }

  lemma NbtNext<N(!new)>(k: Items<N>, s: Input, at: Input)
    requires NbtKeeps(k) && Bounded(k.limits, s) && s.depth < k.limits.limits.depth
    requires at == s.(depth := s.depth + 1) && NbtStep(k, at)
    ensures Kept(k.limits, s, k.decode(at).next.(depth := s.depth), NbtCharges(k, s))
  {
    hide NbtKeeps, Suffix;
  }

  lemma NbtCost<N>(k: Items<N>, s: Input, at: Input)
    requires at == s.(depth := s.depth + 1) && NbtStep(k, at)
    ensures var r := k.decode(at);
            r.Ok? ==> Charged(k.limits, s, r.next.(depth := s.depth), Down(k.cost(r.value)))
  {
    hide Suffix;
  }

  lemma ComponentStep<N(!new)>(k: Items<N>, s: Input)
    requires NbtKeeps(k) && Bounded(k.limits, s)
    ensures var r := TakeComponent(k, s);
            && Kept(k.limits, s, r.next, ComponentCharges(k, s))
            && (r.Ok? ==> Slots.Plain(r.value) && Charged(k.limits, s, r.next, ComponentCost(k, r.value)))
  {
    NumberStep(k, s);
    var id := TakeNumber(k, s);
    if id.Ok? {
      NbtKept(k, id.next);
      NumberStep(k, id.next);
      hide TakeNumber, TakeNbt, Kept, Charged, NbtKeeps, NbtCharges, Bounded, And, Plus;
      BodyStep(k, id.value, id.next);
      var r := TakeComponent(k, s);
      var body := if id.value == CUSTOM_DATA then NbtCharges(k, id.next) else NoCharge;
      KeptChain(k.limits, s, id.next, r.next, NoCharge, body);
      NoChargeAnd(body);
      if r.Ok? {
        ChargedChain(k.limits, s, id.next, r.next, OneDown, if r.value.CustomData? then Down(k.cost(r.value.nbt)) else OneDown);
      }
    }
  }

  lemma NoChargeAnd(a: Sum)
    ensures And(NoCharge, a) == a && And(a, NoCharge) == a
  {}

  lemma BodyStep<N(!new)>(k: Items<N>, id: int, s: Input)
    requires NbtKeeps(k) && Bounded(k.limits, s)
    ensures var r := TakeBody(k, id, s);
            && Kept(k.limits, s, r.next, if id == CUSTOM_DATA then NbtCharges(k, s) else NoCharge)
            && (r.Ok? ==> Slots.Plain(r.value)
                          && Charged(k.limits, s, r.next, if r.value.CustomData? then Down(k.cost(r.value.nbt)) else OneDown))
  {
    NbtKept(k, s);
    NumberStep(k, s);
    assert Kept(k.limits, s, s, NoCharge) by { SuffixSelf(s.rest); }
    hide TakeNumber, TakeNbt, Kept, Charged, NbtKeeps, NbtCharges;
  }

  lemma {:induction false} AddsStep<N(!new)>(k: Items<N>, n: nat, s: Input)
    requires NbtKeeps(k) && Bounded(k.limits, s)
    ensures var r := TakeAdds(k, n, s);
            && Kept(k.limits, s, r.next, AddsCharges(k, n, s))
            && (r.Ok? ==> |r.value| == n && AllPlain(r.value) && Charged(k.limits, s, r.next, AddsCost(k, r.value)))
  {
    hide NbtKeeps, TakeComponent, ComponentCharges, Charged, And, Plus, ComponentCost, Kept, Slots.Plain;
    if n == 0 {
      NothingKept(k.limits, s);
    } else {
      ComponentStep(k, s);
      var x := TakeComponent(k, s);
      assert Bounded(k.limits, x.next) by { KeptBounded(k.limits, s, x.next, ComponentCharges(k, s)); }
      if x.Ok? {
        AddsStep(k, n - 1, x.next);
        var rest := TakeAdds(k, n - 1, x.next);
        KeptChain(k.limits, s, x.next, rest.next, ComponentCharges(k, s), AddsCharges(k, n - 1, x.next));
        if rest.Ok? {
          ChargedChain(k.limits, s, x.next, rest.next, ComponentCost(k, x.value), AddsCost(k, rest.value));
          var all := [x.value] + rest.value;
          assert all[1..] == rest.value;
        }
      } else {
        NoChargeAnd(ComponentCharges(k, s));
      }
    }
  }

  lemma KeptBounded(c: Codec, s: Input, next: Input, sum: Sum)
    requires Kept(c, s, next, sum)
    ensures Bounded(c, next)
  {}

  lemma NothingKept(c: Codec, s: Input)
    requires Bounded(c, s)
    ensures Kept(c, s, s, NoCharge) && Charged(c, s, s, Free)
  {
    SuffixSelf(s.rest);
  }

  lemma {:induction false} RemovesStep<N>(k: Items<N>, n: nat, s: Input)
    requires Bounded(k.limits, s)
    ensures var r := TakeRemoves(k, n, s);
            && Kept(k.limits, s, r.next, NoCharge)
            && (r.Ok? ==> |r.value| == n && AllSigned(r.value) && Charged(k.limits, s, r.next, RemovesCost(r.value)))
  {
    hide TakeNumber, Charged, And, Plus, Kept, Width.Signed;
    if n == 0 {
      NothingKept(k.limits, s);
    } else {
      NumberStep(k, s);
      var x := TakeNumber(k, s);
      if x.Ok? {
        RemovesStep(k, n - 1, x.next);
        var rest := TakeRemoves(k, n - 1, x.next);
        KeptChain(k.limits, s, x.next, rest.next, NoCharge, NoCharge);
        NoChargeAnd(NoCharge);
        if rest.Ok? {
          ChargedChain(k.limits, s, x.next, rest.next, OneDown, RemovesCost(rest.value));
          var all := [x.value] + rest.value;
          assert all[1..] == rest.value;
        }
      }
    }
  }

  /** The three charges in their order; a refused one leaves those before it. */
  lemma ChargeStep<N>(k: Items<N>, a: nat, r: nat, s: Input)
    requires Bounded(k.limits, s)
    ensures Bounded(k.limits, ChargePatch(k, a, r, s).next)
    ensures var (c, o, total) := (k.limits, ChargePatch(k, a, r, s), ListBytes(k, a, r));
            var s1 := s.(elements := s.elements + a);
            if !TakesElements(c, s, a) then o.Err? && Kept(c, s, o.next, NoCharge)
            else if !TakesElements(c, s1, r) then o.Err? && Kept(c, s, o.next, Sum(a, 0))
            else if !TakesBytes(c, s, total) then o.Err? && Kept(c, s, o.next, Sum(a + r, 0))
            else o.Ok? && o.next == s1.(elements := s1.elements + r, heap := s.heap + total)
                 && Kept(c, s, o.next, Sum(a + r, total)) && Charged(c, s, o.next, ChargeCost(k, a, r))
  {
    SuffixSelf(s.rest);
    hide Suffix;
  }

  lemma ListsUnfold<N>(k: Items<N>, a: nat, r: nat, s: Input)
    ensures var (o, charged) := (TakeLists(k, a, r, s), ChargePatch(k, a, r, s));
      && (charged.Err? ==> o.Err? && o.next == charged.next)
      && (charged.Ok? ==>
           var adds := TakeAdds(k, a, charged.next);
           && (adds.Err? ==> o.Err? && o.next == adds.next)
           && (adds.Ok? ==>
                var removes := TakeRemoves(k, r, adds.next);
                o.next == removes.next && (o.Ok? <==> removes.Ok?) && (o.Ok? ==> o.value == (adds.value, removes.value))))
  {
    hide ChargePatch, TakeAdds, TakeRemoves;
  }

  lemma ChargesUnfold<N(!new)>(k: Items<N>, a: nat, r: nat, s: Input)
    requires NbtKeeps(k) && Bounded(k.limits, s)
    ensures var (charged, sum) := (ChargePatch(k, a, r, s), Sum(a + r, ListBytes(k, a, r)));
            && Bounded(k.limits, charged.next)
            && if charged.Err? then Kept(k.limits, s, charged.next, ListsCharges(k, a, r, s))
               else && ListsCharges(k, a, r, s) == And(sum, AddsCharges(k, a, charged.next))
                    && Kept(k.limits, s, charged.next, sum) && Charged(k.limits, s, charged.next, ChargeCost(k, a, r))
  {
    hide ChargePatch, ListBytes, AddsCharges, Charged, Kept, NbtKeeps, ChargeCost, Bounded, TakesElements, TakesBytes, And;
    ChargeStep(k, a, r, s);
  }

  lemma ListsStep<N(!new)>(k: Items<N>, a: nat, r: nat, s: Input)
    requires NbtKeeps(k) && Bounded(k.limits, s)
    ensures var o := TakeLists(k, a, r, s);
            && Kept(k.limits, s, o.next, ListsCharges(k, a, r, s))
            && (o.Ok? ==> |o.value.0| == a && |o.value.1| == r && AllPlain(o.value.0) && AllSigned(o.value.1)
                          && Charged(k.limits, s, o.next, ListsCost(k, o.value.0, o.value.1)))
  {
    hide TakeLists, ListsCharges, ChargePatch, ListBytes, TakeAdds, TakeRemoves, AddsCharges, Charged, Kept, Bounded, And, Plus,
         ChargeCost, AddsCost, RemovesCost, NbtKeeps, AllPlain, AllSigned;
    ListsUnfold(k, a, r, s);
    ChargesUnfold(k, a, r, s);
    var charged := ChargePatch(k, a, r, s);
    if charged.Ok? {
      var (sum, more) := (Sum(a + r, ListBytes(k, a, r)), AddsCharges(k, a, charged.next));
      AddsStep(k, a, charged.next);
      var adds := TakeAdds(k, a, charged.next);
      KeptChain(k.limits, s, charged.next, adds.next, sum, more);
      if adds.Ok? {
        KeptBounded(k.limits, s, adds.next, And(sum, more));
        RemovesStep(k, r, adds.next);
        var removes := TakeRemoves(k, r, adds.next);
        KeptChain(k.limits, s, adds.next, removes.next, And(sum, more), NoCharge);
        NoChargeAnd(And(sum, more));
        if removes.Ok? {
          ChargedChain(k.limits, charged.next, adds.next, removes.next, AddsCost(k, adds.value), RemovesCost(removes.value));
          ChargedChain(k.limits, s, charged.next, removes.next, ChargeCost(k, a, r),
                       Plus(AddsCost(k, adds.value), RemovesCost(removes.value)));
        }
      }
    }
  }

  lemma PatchUnfold<N(!new)>(k: Items<N>, s: Input)
    requires NbtKeeps(k) && Bounded(k.limits, s)
    ensures Bounded(k.limits, TakeNumber(k, s).next) && Bounded(k.limits, TakeNumber(k, TakeNumber(k, s).next).next)
    ensures var (o, sum, a, r) := (TakePatch(k, s), PatchCharges(k, s), TakeNumber(k, s), TakeNumber(k, TakeNumber(k, s).next));
            var c := k.limits.limits.collection;
            if a.Err? then o.Err? && o.next == a.next && sum == NoCharge
            else if r.Err? || !(0 <= a.value <= c && 0 <= r.value <= c) then o.Err? && o.next == r.next && sum == NoCharge
            else sum == ListsCharges(k, a.value, r.value, r.next) && o == TakeLists(k, a.value, r.value, r.next)
  {
    NumberStep(k, s);
    NumberStep(k, TakeNumber(k, s).next);
    hide TakeNumber, TakeLists, ListsCharges, NbtKeeps, Charged, Advances, Ledger;
  }

  lemma PatchStep<N(!new)>(k: Items<N>, s: Input)
    requires NbtKeeps(k) && Bounded(k.limits, s)
    ensures var o := TakePatch(k, s);
            && Kept(k.limits, s, o.next, PatchCharges(k, s))
            && (o.Ok? ==> |o.value.0| <= I32_MAX && |o.value.1| <= I32_MAX && AllPlain(o.value.0) && AllSigned(o.value.1)
                          && Charged(k.limits, s, o.next, Plus(OneDown, Plus(OneDown, ListsCost(k, o.value.0, o.value.1)))))
  {
    hide TakeNumber, TakePatch, PatchCharges, TakeLists, ListsCharges, Charged, Kept, Bounded, And, Plus, ListsCost, NbtKeeps,
         AllPlain, AllSigned;
    PatchUnfold(k, s);
    NumberStep(k, s);
    var a := TakeNumber(k, s);
    if a.Ok? {
      NumberStep(k, a.next);
      var r := TakeNumber(k, a.next);
      KeptChain(k.limits, s, a.next, r.next, NoCharge, NoCharge);
      NoChargeAnd(NoCharge);
      var c := k.limits.limits.collection;
      if r.Ok? && 0 <= a.value <= c && 0 <= r.value <= c {
        ListsStep(k, a.value, r.value, r.next);
        var lists := TakeLists(k, a.value, r.value, r.next);
        KeptChain(k.limits, s, r.next, lists.next, NoCharge, ListsCharges(k, a.value, r.value, r.next));
        NoChargeAnd(ListsCharges(k, a.value, r.value, r.next));
        if lists.Ok? {
          var cost := ListsCost(k, lists.value.0, lists.value.1);
          ChargedChain(k.limits, a.next, r.next, lists.next, OneDown, cost);
          ChargedChain(k.limits, s, a.next, lists.next, OneDown, Plus(OneDown, cost));
        }
      }
    }
  }

  lemma SlotUnfold<N(!new)>(k: Items<N>, s: Input)
    requires NbtKeeps(k) && Bounded(k.limits, s)
    ensures Bounded(k.limits, TakeNumber(k, s).next) && Bounded(k.limits, TakeNumber(k, TakeNumber(k, s).next).next)
    ensures var (o, sum, count, item) := (TakeSlot(k, s), SlotCharges(k, s), TakeNumber(k, s), TakeNumber(k, TakeNumber(k, s).next));
            if count.Err? then o.Err? && o.next == count.next && sum == NoCharge
            else if count.value <= 0 then o == Ok(Slot(0, 0, [], []), count.next) && sum == NoCharge
            else if item.Err? then o.Err? && o.next == item.next && sum == NoCharge
            else var patch := TakePatch(k, item.next);
                 && sum == PatchCharges(k, item.next) && o.next == patch.next && (o.Ok? <==> patch.Ok?)
                 && (o.Ok? ==> o.value == Slot(count.value, item.value, patch.value.0, patch.value.1))
  {
    NumberStep(k, s);
    NumberStep(k, TakeNumber(k, s).next);
    hide TakeNumber, TakePatch, PatchCharges, NbtKeeps, Charged, Advances, Ledger;
  }

  lemma SlotStep<N(!new)>(k: Items<N>, s: Input)
    requires NbtKeeps(k) && Bounded(k.limits, s)
    ensures var o := TakeSlot(k, s);
            && Kept(k.limits, s, o.next, SlotCharges(k, s))
            && (o.Ok? ==> Sized(o.value) && Charged(k.limits, s, o.next, SlotCost(k, o.value)))
  {
    hide TakeNumber, TakeSlot, SlotCharges, TakePatch, PatchCharges, Charged, Kept, Bounded, And, Plus, ListsCost, NbtKeeps, Sized,
         AllPlain, AllSigned;
    SlotUnfold(k, s);
    NumberStep(k, s);
    var count := TakeNumber(k, s);
    if count.Ok? && count.value > 0 {
      NumberStep(k, count.next);
      var item := TakeNumber(k, count.next);
      KeptChain(k.limits, s, count.next, item.next, NoCharge, NoCharge);
      NoChargeAnd(NoCharge);
      if item.Ok? {
        PatchStep(k, item.next);
        var patch := TakePatch(k, item.next);
        KeptChain(k.limits, s, item.next, patch.next, NoCharge, PatchCharges(k, item.next));
        NoChargeAnd(PatchCharges(k, item.next));
        if patch.Ok? {
          ReadIsSized(count.value, item.value, patch.value.0, patch.value.1);
          var cost := Plus(OneDown, Plus(OneDown, ListsCost(k, patch.value.0, patch.value.1)));
          ChargedChain(k.limits, count.next, item.next, patch.next, OneDown, cost);
          ChargedChain(k.limits, s, count.next, patch.next, OneDown, Plus(OneDown, cost));
        }
      }
    } else {
      EmptyIsSized<N>();
    }
  }

  lemma ReadIsSized<N>(count: int, item: int, add: seq<Component<N>>, remove: seq<int>)
    requires W32.Signed(count) && W32.Signed(item) && |add| <= I32_MAX && |remove| <= I32_MAX && AllPlain(add) && AllSigned(remove)
    ensures Sized(Slot(count, item, add, remove))
  {
    PlainIds(add);
  }

  lemma EmptyIsSized<N>()
    ensures Sized<N>(Slot(0, 0, [], []))
  {}

  lemma PlainIds<N>(xs: seq<Component<N>>)
    requires AllPlain(xs)
    ensures forall i :: 0 <= i < |xs| ==> W32.Signed(xs[i].TypeId()) && (xs[i].Raw? || Slots.Plain(xs[i]))
  {
    forall i | 0 <= i < |xs| ensures W32.Signed(xs[i].TypeId()) { assert Slots.Plain(xs[i]); }
  }

  /** For every input and every limits, whether a slot or an error comes out: the bytes left
      are a suffix of the input, the depth is as before, and the totals have grown by exactly
      the charges that were accepted, within their limits. With a slot those are what it
      costs. */
  lemma AnySlot<N(!new)>(k: Items<N>, s: Input)
    requires NbtKeeps(k) && Bounded(k.limits, s)
    ensures var (r, sum) := (TakeSlot(k, s), SlotCharges(k, s));
      && Bounded(k.limits, r.next) && Suffix(r.next.rest, s.rest) && r.next.depth == s.depth
      && r.next.elements == s.elements + sum.elements && r.next.heap == s.heap + sum.heap
      && (r.Ok? ==> var b := SlotCost(k, r.value);
                    Sized(r.value) && Fits(k.limits, b, s) && sum == Sum(b.elements, b.heap))
  {
    SlotStep(k, s);
    hide TakeSlot, SlotCharges, SlotCost, Suffix, Sized, NbtKeeps;
  }

  /** What is decoded from any bytes and written again is decoded to the same slot. */
  lemma SlotReencoded<N(!new)>(k: Items<N>, s: Input, more: bytes)
    requires NbtKeeps(k) && NbtLaw(k) && Bounded(k.limits, s) && TakeSlot(k, s).Ok?
    ensures var (v, again) := (TakeSlot(k, s).value, s.(rest := EncodeSlot(k, TakeSlot(k, s).value) + more));
            TakeSlot(k, again) == Ok(v, After(again, SlotCost(k, v), more))
  {
    AnySlot(k, s);
    DecodedSlots(k, s);
    var v := TakeSlot(k, s).value;
    var again := s.(rest := EncodeSlot(k, v) + more);
    hide TakeSlot, SlotCost, EncodeSlot, Sized, NbtKeeps, NbtLaw, HasRaw, SlotCharges;
    SlotRoundTrip(k, v, again, more);
  }

  /** A patch whose first list is charged and whose second is refused leaves the first on
      the account. */
  lemma RefusedSecondList<N(!new)>(k: Items<N>, a: nat, r: nat, s: Input)
    requires NbtKeeps(k) && Bounded(k.limits, s) && TakesElements(k.limits, s, a)
    requires !TakesElements(k.limits, s.(elements := s.elements + a), r)
    ensures var o := TakeLists(k, a, r, s); o.Err? && o.next.elements == s.elements + a && o.next.heap == s.heap
  {
    ListsStep(k, a, r, s);
    ChargeStep(k, a, r, s);
  }
}
