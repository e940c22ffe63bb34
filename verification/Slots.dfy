/** Item slots of void-protocol/src/slot.rs: a hand-written codec under the
    decoder's budgets. NBT is a parameter with its own codec. */
module Slots {
  import opened VarInt
  import opened Wire
  import opened Schema
  import opened SchemaLaws
  import opened Sequences

  const CUSTOM_DATA := 0
  const MAX_STACK_SIZE := 1
  const MAX_DAMAGE := 2
  const DAMAGE := 3
  const REPAIR_COST := 19

  datatype Component<+N> =
    | MaxStackSize(n: int)
    | MaxDamage(n: int)
    | Damage(n: int)
    | RepairCost(n: int)
    | CustomData(nbt: N)
    | Raw(typeId: int, body: bytes)
  {
    function TypeId(): int {
      match this
      case MaxStackSize(_) => MAX_STACK_SIZE
      case MaxDamage(_) => MAX_DAMAGE
      case Damage(_) => DAMAGE
      case RepairCost(_) => REPAIR_COST
      case CustomData(_) => CUSTOM_DATA
      case Raw(id, _) => id
    }
  }

  datatype Slot<+N> = Slot(count: int, item: int, add: seq<Component<N>>, remove: seq<int>)

  /** `size` is the size in memory of a component. */
  datatype Items<!N> = Items(limits: Codec, size: nat, encode: N -> bytes, decode: Input -> Outcome<N>, cost: N -> Bill)

  // ---- encoding ------------------------------------------------------------------------

  function EncodeNumber(x: int): bytes {
    if W32.Signed(x) then EncodeVar(W32, x) else []
  }

  function EncodeBody<N>(k: Items<N>, x: Component<N>): bytes {
    match x
    case CustomData(nbt) => k.encode(nbt)
    case Raw(_, body) => body
    case _ => EncodeNumber(x.n)
  }

  function EncodeAdds<N>(k: Items<N>, xs: seq<Component<N>>): bytes {
    if xs == [] then [] else EncodeNumber(xs[0].TypeId()) + EncodeBody(k, xs[0]) + EncodeAdds(k, xs[1..])
  }

  function EncodeRemoves(ids: seq<int>): bytes {
    if ids == [] then [] else EncodeNumber(ids[0]) + EncodeRemoves(ids[1..])
  }

  function EncodePatch<N>(k: Items<N>, add: seq<Component<N>>, remove: seq<int>): bytes {
    EncodeLength(|add|) + EncodeLength(|remove|) + EncodeAdds(k, add) + EncodeRemoves(remove)
  }

  function EncodeSlot<N>(k: Items<N>, v: Slot<N>): bytes {
    if v.count <= 0 then EncodeNumber(v.count)
    else EncodeNumber(v.count) + EncodeNumber(v.item) + EncodePatch(k, v.add, v.remove)
  }

  // ---- decoding ------------------------------------------------------------------------

  function TakeNumber<N>(k: Items<N>, s: Input): Outcome<int> {
    Leaf(k.limits, s, TakeVar(W32, s))
  }

  function TakeNbt<N>(k: Items<N>, s: Input): Outcome<N> {
    if s.depth >= k.limits.limits.depth then Err(LimitExceeded(DecodeDepth, s.depth + 1, k.limits.limits.depth), s)
    else
      match k.decode(s.(depth := s.depth + 1))
      case Ok(v, next) => Ok(v, next.(depth := s.depth))
      case Err(e, next) => Err(e, next.(depth := s.depth))
  }

  function Curated(id: int): bool {
    id == CUSTOM_DATA || id == MAX_STACK_SIZE || id == MAX_DAMAGE || id == DAMAGE || id == REPAIR_COST
  }

  function NumberComponent<N>(id: int, n: int): Component<N> {
    if id == MAX_STACK_SIZE then MaxStackSize(n)
    else if id == MAX_DAMAGE then MaxDamage(n)
    else if id == DAMAGE then Damage(n)
    else RepairCost(n)
  }

  /** A body of a curated component; the others cannot be delimited. */
  function TakeBody<N>(k: Items<N>, id: int, s: Input): (r: Outcome<Component<N>>)
    ensures r.Ok? ==> !r.value.Raw?
  {
    if !Curated(id) then Err(InvalidLength, s)
    else if id == CUSTOM_DATA then
      match TakeNbt(k, s)
      case Ok(v, next) => Ok(CustomData(v), next)
      case Err(e, next) => Err(e, next)
    else
      match TakeNumber(k, s)
      case Ok(n, next) => Ok(NumberComponent(id, n), next)
      case Err(e, next) => Err(e, next)
  }

  function TakeComponent<N>(k: Items<N>, s: Input): (r: Outcome<Component<N>>)
    ensures r.Ok? ==> !r.value.Raw?
  {
    match TakeNumber(k, s)
    case Err(e, next) => Err(e, next)
    case Ok(id, s1) => TakeBody(k, id, s1)
  }

  function TakeAdds<N>(k: Items<N>, n: nat, s: Input): Outcome<seq<Component<N>>> {
    if n == 0 then Ok([], s)
    else
      match TakeComponent(k, s)
      case Err(e, next) => Err(e, next)
      case Ok(x, s1) =>
        match TakeAdds(k, n - 1, s1)
        case Err(e, next) => Err(e, next)
        case Ok(rest, next) => Ok([x] + rest, next)
  }

  function TakeRemoves<N>(k: Items<N>, n: nat, s: Input): Outcome<seq<int>> {
    if n == 0 then Ok([], s)
    else
      match TakeNumber(k, s)
      case Err(e, next) => Err(e, next)
      case Ok(x, s1) =>
        match TakeRemoves(k, n - 1, s1)
        case Err(e, next) => Err(e, next)
        case Ok(rest, next) => Ok([x] + rest, next)
  }

  /** The charges of both lists, before either is read. */
  function ChargePatch<N>(k: Items<N>, adds: nat, removes: nat, s: Input): Outcome<()> {
    match ChargeElements(k.limits.limits, s, adds)
    case Err(e, next) => Err(e, next)
    case Ok(_, s1) =>
      match ChargeElements(k.limits.limits, s1, removes)
      case Err(e, next) => Err(e, next)
      case Ok(_, s2) => ChargeAllocation(k.limits.limits, s2, adds * k.size + removes * 4)
  }

  function TakePatch<N>(k: Items<N>, s: Input): Outcome<(seq<Component<N>>, seq<int>)> {
    var collection := k.limits.limits.collection;
    match TakeNumber(k, s)
    case Err(e, next) => Err(e, next)
    case Ok(rawAdds, s1) =>
      match TakeNumber(k, s1)
      case Err(e, next) => Err(e, next)
      case Ok(rawRemoves, s2) =>
        match CheckedLen(rawAdds, CollectionElements, collection, s2)
        case Err(e, next) => Err(e, next)
        case Ok(adds, s3) =>
          match CheckedLen(rawRemoves, CollectionElements, collection, s3)
          case Err(e, next) => Err(e, next)
          case Ok(removes, s4) => TakeLists(k, adds, removes, s4)
  }

  function TakeLists<N>(k: Items<N>, adds: nat, removes: nat, s: Input): Outcome<(seq<Component<N>>, seq<int>)> {
    match ChargePatch(k, adds, removes, s)
    case Err(e, next) => Err(e, next)
    case Ok(_, s1) =>
      match TakeAdds(k, adds, s1)
      case Err(e, next) => Err(e, next)
      case Ok(add, s2) =>
        match TakeRemoves(k, removes, s2)
        case Err(e, next) => Err(e, next)
        case Ok(remove, next) => Ok((add, remove), next)
  }

  function TakeSlot<N>(k: Items<N>, s: Input): Outcome<Slot<N>> {
    match TakeNumber(k, s)
    case Err(e, next) => Err(e, next)
    case Ok(count, s1) =>
      if count <= 0 then Ok(Slot(0, 0, [], []), s1)
      else
        match TakeNumber(k, s1)
        case Err(e, next) => Err(e, next)
        case Ok(item, s2) =>
          match TakePatch(k, s2)
          case Err(e, next) => Err(e, next)
          case Ok(patch, next) => Ok(Slot(count, item, patch.0, patch.1), next)
  }

  // ---- what is assumed of NBT, and what a slot costs ---------------------------------------

  ghost predicate NbtReads<N(!new)>(k: Items<N>, nbt: N, s: Input, more: bytes) {
    Bounded(k.limits, s) && s.rest == k.encode(nbt) + more ==> Paid(k.limits, k.decode(s), k.cost(nbt), nbt, s, more)
  }

  /** The NBT codec reads back what it writes and charges its cost. */
  ghost predicate NbtLaw<N(!new)>(k: Items<N>) {
    forall nbt: N, s: Input, more: bytes :: NbtReads(k, nbt, s, more)
  }

  ghost predicate Plain<N>(x: Component<N>) {
    !x.Raw? && (x.CustomData? || W32.Signed(x.n))
  }

  ghost predicate AllPlain<N>(xs: seq<Component<N>>) {
    forall i :: 0 <= i < |xs| ==> Plain(xs[i])
  }

  ghost predicate AllSigned(ids: seq<int>) {
    forall i :: 0 <= i < |ids| ==> W32.Signed(ids[i])
  }

  function ComponentCost<N>(k: Items<N>, x: Component<N>): Bill {
    Plus(OneDown, if x.CustomData? then Down(k.cost(x.nbt)) else OneDown)
  }

  function AddsCost<N>(k: Items<N>, xs: seq<Component<N>>): Bill {
    if xs == [] then Free else Plus(ComponentCost(k, xs[0]), AddsCost(k, xs[1..]))
  }

  function RemovesCost(ids: seq<int>): Bill {
    if ids == [] then Free else Plus(OneDown, RemovesCost(ids[1..]))
  }

  function ListsCost<N>(k: Items<N>, add: seq<Component<N>>, remove: seq<int>): Bill {
    Plus(ChargeCost(k, |add|, |remove|), Plus(AddsCost(k, add), RemovesCost(remove)))
  }

  function ChargeCost<N>(k: Items<N>, a: nat, r: nat): Bill {
    var collection := k.limits.limits.collection;
    Bill(a + r, a * k.size + r * 4, 0, a <= collection && r <= collection)
  }

  function SlotCost<N>(k: Items<N>, v: Slot<N>): Bill {
    if v.count <= 0 then OneDown
    else Plus(OneDown, Plus(OneDown, Plus(OneDown, Plus(OneDown, ListsCost(k, v.add, v.remove)))))
  }

  /** Numbers that fit their varints, and lists that fit their length prefix. */
  ghost predicate Sized<N>(v: Slot<N>) {
    && W32.Signed(v.count) && W32.Signed(v.item)
    && |v.add| <= I32_MAX && |v.remove| <= I32_MAX
    && AllSigned(v.remove)
    && (forall i :: 0 <= i < |v.add| ==> W32.Signed(v.add[i].TypeId()) && (v.add[i].Raw? || Plain(v.add[i])))
  }

  predicate HasRaw<N>(xs: seq<Component<N>>) {
    exists i :: 0 <= i < |xs| && xs[i].Raw?
  }

  // ---- the round trip -------------------------------------------------------------------------

  lemma NumberBack<N>(k: Items<N>, x: int, s: Input, more: bytes)
    requires Bounded(k.limits, s) && W32.Signed(x) && s.rest == EncodeNumber(x) + more
    ensures Paid(k.limits, TakeNumber(k, s), OneDown, x, s, more)
  {
    TakeVarEncoded(W32, x, s, more);
    hide TakeVar, EncodeVar;
  }

  lemma NbtBack<N(!new)>(k: Items<N>, nbt: N, s: Input, more: bytes)
    requires NbtLaw(k) && Bounded(k.limits, s) && s.rest == k.encode(nbt) + more
    ensures Paid(k.limits, TakeNbt(k, s), Down(k.cost(nbt)), nbt, s, more)
  {
    assert NbtReads(k, nbt, s.(depth := s.depth + 1), more);
  }

  lemma BodyBack<N(!new)>(k: Items<N>, x: Component<N>, s: Input, more: bytes)
    requires NbtLaw(k) && Bounded(k.limits, s) && Plain(x) && s.rest == EncodeBody(k, x) + more
    ensures Paid(k.limits, TakeBody(k, x.TypeId(), s), if x.CustomData? then Down(k.cost(x.nbt)) else OneDown, x, s, more)
  {
    if x.CustomData? {
      NbtBack(k, x.nbt, s, more);
      hide TakeNbt;
    } else {
      NumberBack(k, x.n, s, more);
      hide TakeNumber;
    }
  }

  lemma ComponentSteps<N>(k: Items<N>, id: int, x: Component<N>, b: Bill, s: Input, after: bytes, more: bytes)
    requires Bounded(k.limits, s) && Paid(k.limits, TakeNumber(k, s), OneDown, id, s, after)
    requires Fits(k.limits, OneDown, s) ==> Paid(k.limits, TakeBody(k, id, After(s, OneDown, after)), b, x, After(s, OneDown, after), more)
    ensures Paid(k.limits, TakeComponent(k, s), Plus(OneDown, b), x, s, more)
  {
    hide TakeNumber, TakeBody;
  }

  lemma ComponentBack<N(!new)>(k: Items<N>, x: Component<N>, s: Input, more: bytes)
    requires NbtLaw(k) && Bounded(k.limits, s) && Plain(x) && W32.Signed(x.TypeId())
    requires s.rest == EncodeNumber(x.TypeId()) + EncodeBody(k, x) + more
    ensures Paid(k.limits, TakeComponent(k, s), ComponentCost(k, x), x, s, more)
  {
    hide TakeNumber, TakeBody, TakeComponent, EncodeBody, EncodeNumber, NbtLaw, Paid, Fits, Plain, Component<N>.TypeId;
    var after := EncodeBody(k, x) + more;
    assert s.rest == EncodeNumber(x.TypeId()) + after;
    NumberBack(k, x.TypeId(), s, after);
    if Fits(k.limits, OneDown, s) {
      FitsBounds(k.limits, OneDown, s, after);
      BodyBack(k, x, After(s, OneDown, after), more);
    }
    ComponentSteps(k, x.TypeId(), x, if x.CustomData? then Down(k.cost(x.nbt)) else OneDown, s, after, more);
  }

  lemma AddsNext<N>(k: Items<N>, xs: seq<Component<N>>)
    requires xs != [] && AllPlain(xs)
    ensures Plain(xs[0]) && AllPlain(xs[1..]) && W32.Signed(xs[0].TypeId())
    ensures EncodeAdds(k, xs) == EncodeNumber(xs[0].TypeId()) + EncodeBody(k, xs[0]) + EncodeAdds(k, xs[1..])
    ensures AddsCost(k, xs) == Plus(ComponentCost(k, xs[0]), AddsCost(k, xs[1..]))
  {
    hide ComponentCost, EncodeNumber, EncodeBody, Plus;
  }

  lemma AddsSteps<N>(k: Items<N>, n: nat, x: Component<N>, tail: seq<Component<N>>, a: Bill, b: Bill, s: Input, after: bytes, more: bytes)
    requires Bounded(k.limits, s) && n > 0 && Paid(k.limits, TakeComponent(k, s), a, x, s, after)
    requires Fits(k.limits, a, s) ==> Paid(k.limits, TakeAdds(k, n - 1, After(s, a, after)), b, tail, After(s, a, after), more)
    ensures Paid(k.limits, TakeAdds(k, n, s), Plus(a, b), [x] + tail, s, more)
  {
    hide TakeComponent;
  }

  lemma {:induction false} AddsBack<N(!new)>(k: Items<N>, xs: seq<Component<N>>, s: Input, more: bytes)
    requires NbtLaw(k) && Bounded(k.limits, s) && s.rest == EncodeAdds(k, xs) + more
    requires AllPlain(xs)
    ensures Paid(k.limits, TakeAdds(k, |xs|, s), AddsCost(k, xs), xs, s, more)
  {
    hide TakeComponent, TakeAdds, ComponentCost, EncodeNumber, EncodeBody, NbtLaw, Paid, Fits, Plain, AllPlain, EncodeAdds, AddsCost, Plus,
         Component<N>.TypeId;
    if xs == [] {
      NoAdds(k, s, more);
    } else {
      var (after, a) := (EncodeAdds(k, xs[1..]) + more, ComponentCost(k, xs[0]));
      AddsNext(k, xs);
      assert s.rest == EncodeNumber(xs[0].TypeId()) + EncodeBody(k, xs[0]) + after;
      ComponentBack(k, xs[0], s, after);
      if Fits(k.limits, a, s) {
        FitsBounds(k.limits, a, s, after);
        AddsBack(k, xs[1..], After(s, a, after), more);
      }
      AddsSteps(k, |xs|, xs[0], xs[1..], a, AddsCost(k, xs[1..]), s, after, more);
      assert xs == [xs[0]] + xs[1..];
    }
  }

  lemma NoAdds<N>(k: Items<N>, s: Input, more: bytes)
    requires Bounded(k.limits, s) && s.rest == EncodeAdds(k, []) + more
    ensures Paid(k.limits, TakeAdds(k, 0, s), AddsCost(k, []), [], s, more)
  {
    assert s.rest == more;
    hide TakeComponent;
  }

  lemma RemovesSteps<N>(k: Items<N>, n: nat, x: int, tail: seq<int>, b: Bill, s: Input, after: bytes, more: bytes)
    requires Bounded(k.limits, s) && n > 0 && Paid(k.limits, TakeNumber(k, s), OneDown, x, s, after)
    requires Fits(k.limits, OneDown, s) ==> Paid(k.limits, TakeRemoves(k, n - 1, After(s, OneDown, after)), b, tail, After(s, OneDown, after), more)
    ensures Paid(k.limits, TakeRemoves(k, n, s), Plus(OneDown, b), [x] + tail, s, more)
  {
    hide TakeNumber;
  }

  lemma {:induction false} RemovesBack<N>(k: Items<N>, ids: seq<int>, s: Input, more: bytes)
    requires Bounded(k.limits, s) && s.rest == EncodeRemoves(ids) + more
    requires AllSigned(ids)
    ensures Paid(k.limits, TakeRemoves(k, |ids|, s), RemovesCost(ids), ids, s, more)
  {
    if ids == [] {
      assert s.rest == more;
      hide TakeNumber;
    } else {
      assert AllSigned(ids[1..]) && W32.Signed(ids[0]);
      hide TakeNumber, TakeRemoves, EncodeNumber, Paid, Fits;
      var after := EncodeRemoves(ids[1..]) + more;
      assert s.rest == EncodeNumber(ids[0]) + after;
      NumberBack(k, ids[0], s, after);
      if Fits(k.limits, OneDown, s) {
        FitsBounds(k.limits, OneDown, s, after);
        RemovesBack(k, ids[1..], After(s, OneDown, after), more);
      }
      RemovesSteps(k, |ids|, ids[0], ids[1..], RemovesCost(ids[1..]), s, after, more);
      assert ids == [ids[0]] + ids[1..];
    }
  }

  lemma ChargeBack<N>(k: Items<N>, a: nat, r: nat, s: Input)
    requires Bounded(k.limits, s)
    ensures Paid(k.limits, ChargePatch(k, a, r, s), ChargeCost(k, a, r), (), s, s.rest)
  {}

  lemma ListsSteps<N>(k: Items<N>, add: seq<Component<N>>, remove: seq<int>, charge: Bill, a: Bill, r: Bill, s: Input, after: bytes, more: bytes)
    requires Bounded(k.limits, s) && Paid(k.limits, ChargePatch(k, |add|, |remove|, s), charge, (), s, s.rest)
    requires var s1 := After(s, charge, s.rest);
             Fits(k.limits, charge, s) ==>
               && Paid(k.limits, TakeAdds(k, |add|, s1), a, add, s1, after)
               && (Fits(k.limits, a, s1) ==>
                    Paid(k.limits, TakeRemoves(k, |remove|, After(s1, a, after)), r, remove, After(s1, a, after), more))
    ensures Paid(k.limits, TakeLists(k, |add|, |remove|, s), Plus(charge, Plus(a, r)), (add, remove), s, more)
  {
    hide ChargePatch, TakeAdds, TakeRemoves;
  }

  lemma ListsBack<N(!new)>(k: Items<N>, add: seq<Component<N>>, remove: seq<int>, s: Input, more: bytes)
    requires NbtLaw(k) && Bounded(k.limits, s) && s.rest == EncodeAdds(k, add) + EncodeRemoves(remove) + more
    requires AllPlain(add)
    requires AllSigned(remove)
    ensures Paid(k.limits, TakeLists(k, |add|, |remove|, s), ListsCost(k, add, remove), (add, remove), s, more)
  {
    hide TakeAdds, TakeRemoves, TakeLists, ChargePatch, AddsCost, RemovesCost, EncodeAdds, EncodeRemoves, NbtLaw, Paid, Fits, AllPlain, AllSigned,
         ChargeCost, Plus, Bounded;
    var (a, r) := (|add|, |remove|);
    var charge := ChargeCost(k, a, r);
    var s1 := After(s, charge, s.rest);
    var after := EncodeRemoves(remove) + more;
    Regroup(EncodeAdds(k, add), EncodeRemoves(remove), more);
    ChargeBack(k, a, r, s);
    if Fits(k.limits, charge, s) {
      FitsBounds(k.limits, charge, s, s.rest);
      AddsBack(k, add, s1, after);
      if Fits(k.limits, AddsCost(k, add), s1) {
        FitsBounds(k.limits, AddsCost(k, add), s1, after);
        RemovesBack(k, remove, After(s1, AddsCost(k, add), after), more);
      }
    }
    ListsSteps(k, add, remove, charge, AddsCost(k, add), RemovesCost(remove), s, after, more);
  }

  /** Two numbers, each one level down. */
  lemma TwoSteps<N>(k: Items<N>, x: int, y: int, s: Input, after1: bytes, after2: bytes)
    requires Bounded(k.limits, s) && W32.Signed(x) && W32.Signed(y)
    requires s.rest == EncodeNumber(x) + after1 && after1 == EncodeNumber(y) + after2
    ensures if s.depth < k.limits.limits.depth
            then TakeNumber(k, s) == Ok(x, s.(rest := after1)) && TakeNumber(k, s.(rest := after1)) == Ok(y, s.(rest := after2))
            else TakeNumber(k, s).Err?
  {
    hide TakeNumber, EncodeNumber;
    NumberBack(k, x, s, after1);
    NumberBack(k, y, s.(rest := after1), after2);
  }

  lemma PatchSteps<N>(k: Items<N>, add: seq<Component<N>>, remove: seq<int>, b: Bill, s: Input, after1: bytes, after2: bytes, more: bytes)
    requires Bounded(k.limits, s)
    requires if s.depth < k.limits.limits.depth
             then TakeNumber(k, s) == Ok(|add|, s.(rest := after1)) && TakeNumber(k, s.(rest := after1)) == Ok(|remove|, s.(rest := after2))
             else TakeNumber(k, s).Err?
    requires Paid(k.limits, TakeLists(k, |add|, |remove|, s.(rest := after2)), b, (add, remove), s.(rest := after2), more)
    requires b.within ==> |add| <= k.limits.limits.collection && |remove| <= k.limits.limits.collection
    ensures Paid(k.limits, TakePatch(k, s), Plus(OneDown, Plus(OneDown, b)), (add, remove), s, more)
  {
    hide TakeNumber, TakeLists;
  }

  lemma PatchBack<N(!new)>(k: Items<N>, add: seq<Component<N>>, remove: seq<int>, s: Input, more: bytes)
    requires NbtLaw(k) && Bounded(k.limits, s) && s.rest == EncodePatch(k, add, remove) + more
    requires |add| <= I32_MAX && |remove| <= I32_MAX
    requires AllPlain(add)
    requires AllSigned(remove)
    ensures Paid(k.limits, TakePatch(k, s), Plus(OneDown, Plus(OneDown, ListsCost(k, add, remove))), (add, remove), s, more)
  {
    hide TakeNumber, TakeLists, TakePatch, EncodeAdds, EncodeRemoves, EncodeNumber, EncodeLength, AddsCost, RemovesCost, NbtLaw, Paid, AllPlain, AllSigned;
    var after2 := EncodeAdds(k, add) + EncodeRemoves(remove) + more;
    var after1 := EncodeLength(|remove|) + after2;
    assert s.rest == EncodeLength(|add|) + after1;
    LengthIsNumber(|add|);
    LengthIsNumber(|remove|);
    TwoSteps(k, |add|, |remove|, s, after1, after2);
    ListsBack(k, add, remove, s.(rest := after2), more);
    PatchSteps(k, add, remove, ListsCost(k, add, remove), s, after1, after2, more);
  }

  lemma LengthIsNumber(n: nat)
    requires n <= I32_MAX
    ensures EncodeLength(n) == EncodeNumber(n) && W32.Signed(n)
  {
    assert I32.Wrap(n) == n;
  }

  lemma SlotSteps<N>(k: Items<N>, v: Slot<N>, b: Bill, s: Input, after1: bytes, after2: bytes, more: bytes)
    requires Bounded(k.limits, s) && v.count > 0
    requires if s.depth < k.limits.limits.depth
             then TakeNumber(k, s) == Ok(v.count, s.(rest := after1)) && TakeNumber(k, s.(rest := after1)) == Ok(v.item, s.(rest := after2))
             else TakeNumber(k, s).Err?
    requires Paid(k.limits, TakePatch(k, s.(rest := after2)), b, (v.add, v.remove), s.(rest := after2), more)
    ensures Paid(k.limits, TakeSlot(k, s), Plus(OneDown, Plus(OneDown, b)), v, s, more)
  {
    hide TakeNumber, TakePatch;
  }

  lemma SlotBack<N(!new)>(k: Items<N>, v: Slot<N>, s: Input, more: bytes)
    requires NbtLaw(k) && Bounded(k.limits, s) && Sized(v) && !HasRaw(v.add) && v.count > 0
    requires s.rest == EncodeSlot(k, v) + more
    ensures Paid(k.limits, TakeSlot(k, s), SlotCost(k, v), v, s, more)
  {
    hide TakeNumber, TakePatch, TakeSlot, EncodePatch, EncodeNumber, ListsCost, NbtLaw, HasRaw, Paid, AllPlain, AllSigned;
    var after2 := EncodePatch(k, v.add, v.remove) + more;
    var after1 := EncodeNumber(v.item) + after2;
    assert s.rest == EncodeNumber(v.count) + after1;
    NoRawIsPlain(v);
    TwoSteps(k, v.count, v.item, s, after1, after2);
    PatchBack(k, v.add, v.remove, s.(rest := after2), more);
    SlotSteps(k, v, Plus(OneDown, Plus(OneDown, ListsCost(k, v.add, v.remove))), s, after1, after2, more);
  }

  lemma NoRawIsPlain<N>(v: Slot<N>)
    requires Sized(v) && !HasRaw(v.add)
    ensures AllPlain(v.add)
  {}

  /** The decoder never produces a raw component, nor an empty slot but the one. */
  lemma DecodedSlots<N>(k: Items<N>, s: Input)
    ensures var r := TakeSlot(k, s);
            r.Ok? ==> !HasRaw(r.value.add) && (r.value.count > 0 || r.value == Slot(0, 0, [], []))
  {
    forall n: nat, t: Input ensures TakeAdds(k, n, t).Ok? ==> !HasRaw(TakeAdds(k, n, t).value) {
      DecodedAdds(k, n, t);
    }
    hide TakeAdds, TakeNumber, TakeRemoves, HasRaw, ChargePatch;
    assert !HasRaw<N>([]) by { DecodedAdds(k, 0, s); NothingIsRaw<N>(); }
  }

  lemma NothingIsRaw<N>()
    ensures !HasRaw<N>([])
  {}

  lemma {:induction false} DecodedAdds<N>(k: Items<N>, n: nat, s: Input)
    ensures var r := TakeAdds(k, n, s); r.Ok? ==> !HasRaw(r.value)
  {
    hide TakeComponent;
    if n > 0 {
      var x := TakeComponent(k, s);
      if x.Ok? {
        DecodedAdds(k, n - 1, x.next);
      }
    }
  }

  /** A slot is decoded back exactly when the limits allow it, no component is raw, and
      it is the one empty slot or not empty; then the bytes behind it are left. */
  lemma SlotRoundTrip<N(!new)>(k: Items<N>, v: Slot<N>, s: Input, more: bytes)
    requires NbtLaw(k) && Bounded(k.limits, s) && Sized(v) && s.rest == EncodeSlot(k, v) + more
    ensures var r := TakeSlot(k, s);
            r.Ok? && r.value == v <==>
              Fits(k.limits, SlotCost(k, v), s) && !HasRaw(v.add) && (v.count > 0 || v == Slot(0, 0, [], []))
    ensures var r := TakeSlot(k, s);
            r.Ok? && r.value == v ==> r.next == After(s, SlotCost(k, v), more)
  {
    DecodedSlots(k, s);
    if v.count <= 0 {
      NumberBack(k, v.count, s, more);
      NothingIsRaw<N>();
      hide TakeNumber, TakePatch;
    } else if !HasRaw(v.add) {
      SlotBack(k, v, s, more);
      hide TakeSlot, EncodeSlot, SlotCost;
    }
  }
}
