/** The retained scene of void-demo/src/displays.rs: display entities reconciled by
    key, once every keyframe, with what the frame asks for.

    Entities are numbers, never reused. Spawning and despawning are commands: a query
    over the frame sees neither until the keyframe is over. */
module Displays {
  datatype Key = Key(owner: nat, kind: nat, part: nat)
  type Entity = nat

  const JUMP: real := 6.0

  datatype Model = Block(state: int) | Item(id: int)

  datatype Position = Position(x: real, y: real, z: real)

  datatype Frame = Frame(at: Position, model: Model, transform: int)

  datatype Slot = Slot(entity: Entity, frame: Frame, stamp: nat)

  /** The table of keys, the entities that live and what they show, and the commands
      queued so far. */
  datatype Scene = Scene(
    slots: map<Key, Slot>,
    live: map<Entity, Frame>,
    spawned: map<Entity, Frame>,
    doomed: set<Entity>,
    next: Entity)

  datatype Request = Request(key: Key, frame: Frame)

  predicate Jumped(a: Position, b: Position) {
    (b.x - a.x) * (b.x - a.x) + (b.y - a.y) * (b.y - a.y) + (b.z - a.z) * (b.z - a.z) > JUMP * JUMP
  }

  predicate SameKind(a: Model, b: Model) {
    a.Block? <==> b.Block?
  }

  /** The entity can be moved and changed instead of replaced. */
  predicate Movable(live: map<Entity, Frame>, slot: Slot, frame: Frame) {
    SameKind(slot.frame.model, frame.model) && !Jumped(slot.frame.at, frame.at) && slot.entity in live
  }

  function Respawn(s: Scene, key: Key, frame: Frame, tick: nat): Scene {
    s.(slots := s.slots[key := Slot(s.next, frame, tick)],
       spawned := s.spawned[s.next := frame],
       next := s.next + 1)
  }

  function Apply(s: Scene, r: Request, tick: nat): Scene {
    if r.key !in s.slots then Respawn(s, r.key, r.frame, tick)
    else
      var slot := s.slots[r.key];
      if slot.frame == r.frame then s.(slots := s.slots[r.key := slot.(stamp := tick)])
      else if Movable(s.live, slot, r.frame) then
        s.(slots := s.slots[r.key := Slot(slot.entity, r.frame, tick)], live := s.live[slot.entity := r.frame])
      else Respawn(s.(doomed := s.doomed + {slot.entity}), r.key, r.frame, tick)
  }

  function ApplyAll(s: Scene, requests: seq<Request>, tick: nat): Scene {
    if requests == [] then s
    else Apply(ApplyAll(s, requests[..|requests| - 1], tick), requests[|requests| - 1], tick)
  }

  /** Keys that were not asked for go. */
  function Finish(s: Scene, tick: nat): Scene {
    s.(slots := map k | k in s.slots && s.slots[k].stamp == tick :: s.slots[k],
       doomed := s.doomed + set k | k in s.slots && s.slots[k].stamp != tick :: s.slots[k].entity)
  }

  function Clear(s: Scene): Scene {
    s.(slots := map[], doomed := s.doomed + set k | k in s.slots :: s.slots[k].entity)
  }

  /** The queued commands take effect. */
  function Flush(s: Scene): Scene {
    s.(live := (s.live + s.spawned) - s.doomed, spawned := map[], doomed := {})
  }

  function Keyframe(s: Scene, requests: seq<Request>, tick: nat): Scene {
    Flush(Finish(ApplyAll(s, requests, tick), tick))
  }

  // ---- the scene between keyframes --------------------------------------------------------

  /** One living entity per key, showing the key's frame, and no other. */
  ghost predicate Mirrors(s: Scene) {
    && s.spawned == map[] && s.doomed == {}
    && (forall e :: e in s.live ==> e < s.next)
    && (forall k :: k in s.slots ==> s.slots[k].entity in s.live && s.live[s.slots[k].entity] == s.slots[k].frame)
    && (forall j, k :: j in s.slots && k in s.slots && s.slots[j].entity == s.slots[k].entity ==> j == k)
    && (forall e :: e in s.live ==> Owned(s, e))
  }

  ghost predicate Owned(s: Scene, e: Entity) {
    exists k :: k in s.slots && s.slots[k].entity == e
  }

  ghost predicate Older(s: Scene, tick: nat) {
    forall k :: k in s.slots ==> s.slots[k].stamp < tick
  }

  /** What an entity shows once the queue is flushed. */
  function Look(s: Scene, e: Entity): Frame
    requires e in s.live || e in s.spawned
  {
    if e in s.spawned then s.spawned[e] else s.live[e]
  }

  /** Within a keyframe: each key's entity, old or queued, shows its frame and is not
      doomed, and every other is. */
  ghost predicate Consistent(s: Scene) {
    && (forall e :: e in s.live || e in s.spawned || e in s.doomed ==> e < s.next)
    && (forall e :: e in s.spawned ==> e !in s.live)
    && (forall k :: k in s.slots ==> Held(s, s.slots[k]))
    && (forall j, k :: j in s.slots && k in s.slots && s.slots[j].entity == s.slots[k].entity ==> j == k)
    && (forall e :: e in s.live || e in s.spawned ==> e in s.doomed || Owned(s, e))
  }

  ghost predicate Held(s: Scene, slot: Slot) {
    && (slot.entity in s.live || slot.entity in s.spawned)
    && slot.entity !in s.doomed
    && Look(s, slot.entity) == slot.frame
  }

  lemma MirrorsAreConsistent(s: Scene)
    requires Mirrors(s)
    ensures Consistent(s)
  {}

  lemma FreshConsistent(s: Scene, key: Key, frame: Frame, tick: nat)
    requires Consistent(s) && key !in s.slots
    ensures Consistent(Respawn(s, key, frame, tick))
  {
    var t := Respawn(s, key, frame, tick);
    forall e | e in t.live || e in t.spawned ensures e in t.doomed || Owned(t, e) {
      if e == s.next {
        assert t.slots[key].entity == e;
      } else if e !in s.doomed {
        var k :| k in s.slots && s.slots[k].entity == e;
        assert t.slots[k].entity == e;
      }
    }
    forall k | k in t.slots ensures Held(t, t.slots[k]) {
      if k != key { assert Held(s, s.slots[k]); }
    }
  }

  lemma ReplacedConsistent(s: Scene, key: Key, frame: Frame, tick: nat)
    requires Consistent(s) && key in s.slots
    ensures Consistent(Respawn(s.(doomed := s.doomed + {s.slots[key].entity}), key, frame, tick))
  {
    var old_ := s.slots[key].entity;
    var t := Respawn(s.(doomed := s.doomed + {old_}), key, frame, tick);
    assert Held(s, s.slots[key]);
    forall e | e in t.live || e in t.spawned ensures e in t.doomed || Owned(t, e) {
      if e == s.next {
        assert t.slots[key].entity == e;
      } else if e !in s.doomed && e != old_ {
        var k :| k in s.slots && s.slots[k].entity == e;
        assert t.slots[k].entity == e;
      }
    }
    forall k | k in t.slots ensures Held(t, t.slots[k]) {
      if k != key { assert Held(s, s.slots[k]); }
    }
  }

  lemma ApplyConsistent(s: Scene, r: Request, tick: nat)
    requires Consistent(s)
    ensures Consistent(Apply(s, r, tick))
  {
    hide Consistent, Respawn;
    if r.key !in s.slots {
      FreshConsistent(s, r.key, r.frame, tick);
    } else if s.slots[r.key].frame == r.frame || Movable(s.live, s.slots[r.key], r.frame) {
      KeptConsistent(s, r, tick);
    } else {
      ReplacedConsistent(s, r.key, r.frame, tick);
    }
  }

  lemma KeptConsistent(s: Scene, r: Request, tick: nat)
    requires Consistent(s) && r.key in s.slots
    requires s.slots[r.key].frame == r.frame || Movable(s.live, s.slots[r.key], r.frame)
    ensures Consistent(Apply(s, r, tick))
  {
    var (t, slot) := (Apply(s, r, tick), s.slots[r.key]);
    forall k | k in t.slots ensures Held(t, t.slots[k]) {
      assert Held(s, s.slots[k]);
    }
    forall e | e in t.live || e in t.spawned ensures e in t.doomed || Owned(t, e) {
      if e !in s.doomed {
        var k :| k in s.slots && s.slots[k].entity == e;
        assert t.slots[k].entity == e;
      }
    }
  }

  lemma {:induction false} ApplyAllConsistent(s: Scene, requests: seq<Request>, tick: nat)
    requires Consistent(s)
    ensures Consistent(ApplyAll(s, requests, tick))
  {
    if requests != [] {
      ApplyAllConsistent(s, requests[..|requests| - 1], tick);
      ApplyConsistent(ApplyAll(s, requests[..|requests| - 1], tick), requests[|requests| - 1], tick);
    }
  }

  lemma FlushMirrors(s: Scene)
    requires Consistent(s)
    ensures Mirrors(Flush(s))
  {
    var t := Flush(s);
    forall e | e in t.live ensures Owned(t, e) {
      var k :| k in s.slots && s.slots[k].entity == e;
      assert t.slots[k].entity == e;
    }
    forall k | k in t.slots ensures t.slots[k].entity in t.live && t.live[t.slots[k].entity] == t.slots[k].frame {
      assert Held(s, s.slots[k]);
    }
  }

  lemma FinishConsistent(s: Scene, tick: nat)
    requires Consistent(s)
    ensures Consistent(Finish(s, tick))
  {
    var t := Finish(s, tick);
    forall e | e in t.live || e in t.spawned ensures e in t.doomed || Owned(t, e) {
      if e !in s.doomed {
        var k :| k in s.slots && s.slots[k].entity == e;
        if k in t.slots { assert t.slots[k].entity == e; }
      }
    }
    forall k | k in t.slots ensures Held(t, t.slots[k]) {
      assert Held(s, s.slots[k]);
    }
    forall k | k in s.slots && s.slots[k].stamp != tick ensures s.slots[k].entity < t.next {
      assert Held(s, s.slots[k]);
    }
  }

  // ---- what a keyframe leaves behind ---------------------------------------------------------

  predicate Requested(requests: seq<Request>, k: Key) {
    exists i :: 0 <= i < |requests| && requests[i].key == k
  }

  /** The last frame asked for under the key. */
  function LastFrame(requests: seq<Request>, k: Key): Frame
    requires Requested(requests, k)
  {
    var n := |requests| - 1;
    if requests[n].key == k then requests[n].frame else LastFrame(requests[..n], k)
  }

  lemma RequestedSnoc(requests: seq<Request>, k: Key)
    requires requests != []
    ensures var n := |requests| - 1;
            Requested(requests, k) <==> requests[n].key == k || Requested(requests[..n], k)
  {
    var n := |requests| - 1;
    if Requested(requests, k) {
      var i :| 0 <= i < |requests| && requests[i].key == k;
      if i < n { assert requests[..n][i].key == k; }
    }
    if Requested(requests[..n], k) {
      var i :| 0 <= i < n && requests[..n][i].key == k;
      assert requests[i].key == k;
    }
  }

  /** Keys asked for carry the frame asked for last and the stamp of the keyframe; the
      others are as they were. */
  lemma {:induction false} ApplyAllFrames(s: Scene, requests: seq<Request>, tick: nat, k: Key)
    ensures var t := ApplyAll(s, requests, tick);
            if Requested(requests, k) then k in t.slots && t.slots[k].stamp == tick && t.slots[k].frame == LastFrame(requests, k)
            else (k in t.slots <==> k in s.slots) && (k in s.slots ==> t.slots[k] == s.slots[k])
  {
    if requests != [] {
      ApplyAllFrames(s, requests[..|requests| - 1], tick, k);
      RequestedSnoc(requests, k);
      hide Jumped;
    }
  }

  /** After every keyframe, from any scene that mirrors its keys: the living entities are
      exactly one for each key asked for, each showing the frame asked for last. */
  lemma KeyframeMirrorsRequests(s: Scene, requests: seq<Request>, tick: nat)
    requires Mirrors(s) && Older(s, tick)
    ensures var t := Keyframe(s, requests, tick);
      && Mirrors(t) && Older(t, tick + 1)
      && (forall k :: k in t.slots <==> Requested(requests, k))
      && (forall k :: k in t.slots ==> t.slots[k].frame == LastFrame(requests, k) && t.live[t.slots[k].entity] == LastFrame(requests, k))
  {
    var applied := ApplyAll(s, requests, tick);
    MirrorsAreConsistent(s);
    ApplyAllConsistent(s, requests, tick);
    FinishConsistent(applied, tick);
    FlushMirrors(Finish(applied, tick));
    var t := Keyframe(s, requests, tick);
    forall k ensures k in t.slots <==> Requested(requests, k) { ApplyAllFrames(s, requests, tick, k); }
    forall k | k in t.slots ensures t.slots[k].frame == LastFrame(requests, k) && t.slots[k].stamp == tick {
      ApplyAllFrames(s, requests, tick, k);
    }
    hide ApplyAll;
  }

  /** Outside a race everything goes. */
  lemma ClearLeavesNothing(s: Scene)
    requires Mirrors(s)
    ensures var t := Flush(Clear(s)); Mirrors(t) && t.slots == map[] && t.live == map[]
  {
    var t := Flush(Clear(s));
    forall e | e in s.live ensures e !in t.live {
      assert Owned(s, e);
    }
  }

  // ---- survival -------------------------------------------------------------------------------

  /** The entity showing one frame is kept for the next. */
  predicate Follows(before: Frame, after: Frame) {
    SameKind(before.model, after.model) && !Jumped(before.at, after.at)
  }

  /** What the key shows after the requests if it showed f before them. */
  function Shown(requests: seq<Request>, k: Key, f: Frame): Frame {
    if Requested(requests, k) then LastFrame(requests, k) else f
  }

  /** From f on, every request for the key keeps the kind of model and does not jump. */
  predicate Smooth(requests: seq<Request>, k: Key, f: Frame) {
    var n := |requests| - 1;
    requests == [] || (Smooth(requests[..n], k, f)
                       && (requests[n].key == k ==> Follows(Shown(requests[..n], k, f), requests[n].frame)))
  }

  lemma {:induction false} ApplyAllSurvival(s: Scene, requests: seq<Request>, tick: nat, k: Key)
    requires Mirrors(s) && k in s.slots
    ensures var t := ApplyAll(s, requests, tick);
      && s.next <= t.next && k in t.slots
      && (t.slots[k].entity == s.slots[k].entity ==> t.slots[k].entity in t.live)
      && (t.slots[k].entity == s.slots[k].entity || t.slots[k].entity >= s.next)
      && (t.slots[k].entity == s.slots[k].entity <==> Smooth(requests, k, s.slots[k].frame))
  {
    assert s.slots[k].entity in s.live && s.slots[k].entity < s.next;
    if requests != [] {
      hide Jumped;
      var n := |requests| - 1;
      ApplyAllSurvival(s, requests[..n], tick, k);
      if requests[n].key == k {
        ApplyAllFrames(s, requests[..n], tick, k);
        NoJumpInPlace(requests[n].frame.at);
      }
    }
  }

  /** The part of the move from a to b in the direction of w, times the length of w. */
  function Component(a: Position, b: Position, w: Position): real {
    (b.x - a.x) * w.x + (b.y - a.y) * w.y + (b.z - a.z) * w.z
  }

  function Norm2(w: Position): real {
    w.x * w.x + w.y * w.y + w.z * w.z
  }

  /** A jump is a move of more than six blocks in some direction. */
  lemma JumpIsFar(a: Position, b: Position)
    ensures Jumped(a, b) <==> exists w: Position {:trigger Component(a, b, w)} :: Component(a, b, w) * Component(a, b, w) > 36.0 * Norm2(w)
  {
    var v := Position(b.x - a.x, b.y - a.y, b.z - a.z);
    if Jumped(a, b) {
      LongerSquare(Norm2(v));
      assert Component(a, b, v) == Norm2(v);
    }
    if w: Position {:trigger Component(a, b, w)} :| Component(a, b, w) * Component(a, b, w) > 36.0 * Norm2(w) {
      CauchySchwarz(v, w);
      if !Jumped(a, b) { Scaled(Norm2(v), Norm2(w)); }
    }
  }

  lemma LongerSquare(n: real)
    ensures n > 36.0 ==> n * n > 36.0 * n
  {}

  lemma Scaled(n: real, m: real)
    requires n <= 36.0 && m >= 0.0
    ensures n * m <= 36.0 * m
  {}

  lemma CauchySchwarz(v: Position, w: Position)
    ensures Norm2(w) >= 0.0
    ensures var d := v.x * w.x + v.y * w.y + v.z * w.z; d * d <= Norm2(v) * Norm2(w)
  {
    var (p, q, r) := (v.y * w.z - v.z * w.y, v.z * w.x - v.x * w.z, v.x * w.y - v.y * w.x);
    var d := v.x * w.x + v.y * w.y + v.z * w.z;
    assert Norm2(v) * Norm2(w) == d * d + p * p + q * q + r * r;
  }

  lemma NoJumpInPlace(p: Position)
    ensures !Jumped(p, p)
  {}

  /** An entity lives through a keyframe exactly when its key is asked for again and no
      request for it, of any number, changes the kind of model or jumps. */
  lemma EntitySurvives(s: Scene, requests: seq<Request>, tick: nat, k: Key)
    requires Mirrors(s) && Older(s, tick) && k in s.slots
    ensures s.slots[k].entity in Keyframe(s, requests, tick).live <==>
            Requested(requests, k) && Smooth(requests, k, s.slots[k].frame)
  {
    var (t, e) := (Keyframe(s, requests, tick), s.slots[k].entity);
    KeyframeMirrorsRequests(s, requests, tick);
    ApplyAllSurvival(s, requests, tick, k);
    var applied := ApplyAll(s, requests, tick);
    if e in t.live {
      var j :| j in t.slots && t.slots[j].entity == e;
      assert applied.slots[j].entity == e;
      if j !in s.slots {
        FreshKeys(s, requests, tick, j);
      } else {
        ApplyAllSurvival(s, requests, tick, j);
      }
      assert j == k;
    } else if Requested(requests, k) {
      assert t.slots[k].entity == applied.slots[k].entity;
    }
    hide ApplyAll, Smooth, Jumped, Keyframe;
  }

  ghost predicate OncePerKey(requests: seq<Request>) {
    forall i, j :: 0 <= i < j < |requests| ==> requests[i].key != requests[j].key
  }

  /** When no key is asked for twice, only the last frame is compared. */
  lemma {:induction false} SmoothOnce(requests: seq<Request>, k: Key, f: Frame)
    requires OncePerKey(requests)
    ensures Smooth(requests, k, f) <==> (Requested(requests, k) ==> Follows(f, LastFrame(requests, k)))
  {
    if requests != [] {
      var n := |requests| - 1;
      SmoothOnce(requests[..n], k, f);
      RequestedSnoc(requests, k);
      assert requests[n].key == k ==> !Requested(requests[..n], k);
      hide Follows;
    }
  }

  /** A key that is new gets a new entity. */
  lemma {:induction false} FreshKeys(s: Scene, requests: seq<Request>, tick: nat, k: Key)
    requires k !in s.slots
    ensures var t := ApplyAll(s, requests, tick); s.next <= t.next && (k in t.slots ==> t.slots[k].entity >= s.next)
  {
    if requests != [] {
      FreshKeys(s, requests[..|requests| - 1], tick, k);
      hide Jumped;
    }
  }

  // ---- runs -----------------------------------------------------------------------------------

  datatype Sync = Show(requests: seq<Request>) | Hide

  function SyncOnce(s: Scene, sync: Sync, tick: nat): Scene {
    match sync
    case Show(requests) => Keyframe(s, requests, tick)
    case Hide => Flush(Clear(s))
  }

  function SyncAll(s: Scene, syncs: seq<Sync>, tick: nat): Scene {
    if syncs == [] then s else SyncOnce(SyncAll(s, syncs[..|syncs| - 1], tick), syncs[|syncs| - 1], tick + |syncs| - 1)
  }

  /** Over any run of keyframes nothing leaks: the scene always mirrors its keys. */
  lemma {:induction false} NothingLeaks(s: Scene, syncs: seq<Sync>, tick: nat)
    requires Mirrors(s) && Older(s, tick)
    ensures var t := SyncAll(s, syncs, tick); Mirrors(t) && Older(t, tick + |syncs|)
  {
    hide Mirrors, Older, SyncOnce;
    if syncs != [] {
      var n := |syncs| - 1;
      NothingLeaks(s, syncs[..n], tick);
      SyncMirrors(SyncAll(s, syncs[..n], tick), syncs[n], tick + n);
    }
  }

  lemma SyncMirrors(s: Scene, sync: Sync, tick: nat)
    requires Mirrors(s) && Older(s, tick)
    ensures Mirrors(SyncOnce(s, sync, tick)) && Older(SyncOnce(s, sync, tick), tick + 1)
  {
    hide Mirrors, Keyframe;
    match sync
    case Show(requests) => KeyframeMirrorsRequests(s, requests, tick);
    case Hide => ClearLeavesNothing(s);
  }

  // ---- the stage -------------------------------------------------------------------------------

  class Stage {
    var slots: map<Key, Slot>
    var live: map<Entity, Frame>
    var spawned: map<Entity, Frame>
    var doomed: set<Entity>
    var next: Entity

    constructor ()
      ensures View() == Scene(map[], map[], map[], {}, 0)
    {
      slots, live, spawned, doomed, next := map[], map[], map[], {}, 0;
    }

    ghost function View(): Scene
      reads this
    {
      Scene(slots, live, spawned, doomed, next)
    }

    /** Only what differs is written, and that makes the entity show the frame. */
    method Rewrite(slot: Slot, frame: Frame)
      requires slot.entity in live && live[slot.entity] == slot.frame
      modifies this`live
      ensures live == old(live)[slot.entity := frame]
    {
      var shown := live[slot.entity];
      if slot.frame.at != frame.at {
        shown := shown.(at := frame.at);
      }
      if slot.frame.transform != frame.transform {
        shown := shown.(transform := frame.transform);
      }
      if slot.frame.model != frame.model {
        shown := shown.(model := frame.model);
      }
      live := live[slot.entity := shown];
    }

    method Spawn(key: Key, frame: Frame, tick: nat)
      modifies this
      ensures View() == Respawn(old(View()), key, frame, tick)
    {
      spawned := spawned[next := frame];
      slots := slots[key := Slot(next, frame, tick)];
      next := next + 1;
    }

    method ApplyOne(r: Request, tick: nat)
      requires Consistent(View())
      modifies this
      ensures View() == Apply(old(View()), r, tick)
    {
      assert r.key in slots && slots[r.key].entity in live ==> live[slots[r.key].entity] == slots[r.key].frame by {
        assert r.key in slots ==> Held(View(), slots[r.key]);
      }
      hide Consistent, Held, Look, Jumped, SameKind;
      if r.key in slots {
        var slot := slots[r.key];
        slots := slots[r.key := slot.(stamp := tick)];
        if slot.frame == r.frame {
          return;
        }
        if SameKind(slot.frame.model, r.frame.model) && !Jumped(slot.frame.at, r.frame.at) && slot.entity in live {
          Rewrite(slot, r.frame);
          slots := slots[r.key := Slot(slot.entity, r.frame, tick)];
          assert slots == old(slots)[r.key := Slot(slot.entity, r.frame, tick)];
          return;
        }
        doomed := doomed + {slot.entity};
        Spawn(r.key, r.frame, tick);
        assert slots == old(slots)[r.key := Slot(old(next), r.frame, tick)];
      } else {
        Spawn(r.key, r.frame, tick);
      }
    }

    method FinishFrame(tick: nat)
      modifies this
      ensures View() == Finish(old(View()), tick)
    {
      doomed := doomed + set k | k in slots && slots[k].stamp != tick :: slots[k].entity;
      slots := map k | k in slots && slots[k].stamp == tick :: slots[k];
    }

    method ClearAll()
      modifies this
      ensures View() == Clear(old(View()))
    {
      doomed := doomed + set k | k in slots :: slots[k].entity;
      slots := map[];
    }

    method FlushCommands()
      modifies this
      ensures View() == Flush(old(View()))
    {
      live := (live + spawned) - doomed;
      spawned := map[];
      doomed := {};
    }

    method RunKeyframe(requests: seq<Request>, tick: nat)
      requires Mirrors(View())
      modifies this
      ensures View() == Keyframe(old(View()), requests, tick)
    {
      hide Consistent, Mirrors, Apply;
      MirrorsAreConsistent(View());
      for i := 0 to |requests|
        invariant View() == ApplyAll(old(View()), requests[..i], tick)
        invariant Consistent(View())
      {
        assert requests[..i + 1][..i] == requests[..i];
        ApplyConsistent(View(), requests[i], tick);
        ApplyOne(requests[i], tick);
      }
      assert requests[..|requests|] == requests;
      FinishFrame(tick);
      FlushCommands();
    }
  }
}
