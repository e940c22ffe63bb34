/** Write-back of chunks in void-world-io: dirty markers, the periodic flush, the
    flush on exit, and loading before generating.

    Setting a block marks its chunk at once. Setting a block entity only queues an
    update in its chunk; the marker comes when the queue is drained.

    A store is a map from places to trees; which writes fail is up to the environment. */
module Persistence {
  import opened Options
  import opened Wire
  import opened ChunkFormat

  datatype Key = Key(dimension: nat, x: int, z: int)

  /** A limit of zero saves per flush stands for no limit. */
  datatype Config = Config(interval: nat, maxSaves: nat, regenerateLight: bool)

  datatype Env = Env(blocks: Blocks, generate: Key -> Chunk, config: Config)

  /** `pending` are the chunks with queued updates of block entities. */
  datatype World = World(chunks: map<Key, Chunk>, dirty: set<Key>, pending: set<Key>, store: map<Key, Tree>, ticker: nat)

  // ---- loading ------------------------------------------------------------------------

  /** A stored chunk that reads back, else a generated one. */
  function LoadOrGenerate(env: Env, store: map<Key, Tree>, key: Key): Chunk {
    if key in store && ReadChunk(env.blocks, store[key]).Some?
    then ReadChunk(env.blocks, store[key]).value.chunk
    else env.generate(key)
  }

  function Stream(env: Env, w: World, key: Key): World {
    if key in w.chunks then w else w.(chunks := w.chunks[key := LoadOrGenerate(env, w.store, key)])
  }

  // ---- edits ----------------------------------------------------------------------------

  /** A change of blocks. The chunk's last queued update can go with it, when the block
      that hosted the entity goes. */
  function Edit(w: World, key: Key, c: Chunk, unqueued: bool): World {
    w.(chunks := w.chunks[key := c],
       dirty := w.dirty + {key},
       pending := if unqueued then w.pending - {key} else w.pending)
  }

  /** Refused where the chunk is not loaded or the block does not host the entity. */
  function SetEntity(env: Env, w: World, key: Key, at: Local, e: BlockEntity): World {
    if key !in w.chunks || !Hosted(env.blocks, w.chunks[key].sections, at, e) then w
    else
      var c := w.chunks[key];
      w.(chunks := w.chunks[key := c.(entities := c.entities[at := e])], pending := w.pending + {key})
  }

  function RemoveEntity(w: World, key: Key, at: Local): World {
    if key !in w.chunks || at !in w.chunks[key].entities then w
    else
      var c := w.chunks[key];
      w.(chunks := w.chunks[key := c.(entities := c.entities - {at})], pending := w.pending + {key})
  }

  /** The sync of block entities: every chunk with a queue is marked and its queue emptied. */
  function Drain(w: World): World {
    w.(dirty := w.dirty + w.pending, pending := {})
  }

  // ---- saving -------------------------------------------------------------------------

  /** The keys a flush saves, of those the query visits in order. */
  function Saves(order: seq<Key>, limit: nat, fails: set<Key>): (saved: seq<Key>)
    ensures |saved| <= |order|
    ensures forall k :: k in saved ==> k in order && k !in fails
  {
    if order == [] then []
    else
      var (before, k) := (Saves(order[..|order| - 1], limit, fails), order[|order| - 1]);
      if (limit != 0 && |before| >= limit) || k in fails then before else before + [k]
  }

  ghost predicate EnumeratesKeys(order: seq<Key>, keys: set<Key>) {
    && (forall k :: k in order <==> k in keys)
    && Distinct(order)
  }

  /** The orders in which each chunk's block entities are walked. */
  type Walks = Key -> seq<Local>

  ghost predicate WalksOk(walks: Walks, chunks: map<Key, Chunk>) {
    forall k :: k in chunks ==> Enumerates(walks(k), chunks[k].entities)
  }

  function SavedTree(env: Env, key: Key, c: Chunk, walk: seq<Local>): Tree
    requires forall i :: 0 <= i < |walk| ==> walk[i] in c.entities
  {
    ChunkTree(env.blocks, key.dimension, key.x, key.z, c, walk, !env.config.regenerateLight)
  }

  function Flush(env: Env, w: World, order: seq<Key>, limit: nat, fails: set<Key>, walks: Walks): World
    requires forall k :: k in order ==> k in w.chunks
    requires forall k :: k in w.chunks ==> forall at :: at in walks(k) ==> at in w.chunks[k].entities
  {
    var saved := Saves(order, limit, fails);
    w.(store := w.store + SavedTrees(env, w.chunks, saved, walks), dirty := w.dirty - set k | k in saved)
  }

  function SavedTrees(env: Env, chunks: map<Key, Chunk>, saved: seq<Key>, walks: Walks): map<Key, Tree>
    requires forall k :: k in saved ==> k in chunks
    requires forall k :: k in chunks ==> forall at :: at in walks(k) ==> at in chunks[k].entities
  {
    map k | k in saved :: SavedTree(env, k, chunks[k], walks(k))
  }

  datatype Event =
    | Streamed(key: Key)
    | Edited(key: Key, chunk: Chunk, unqueued: bool)
    | EntitySet(key: Key, at: Local, entity: BlockEntity)
    | EntityRemoved(key: Key, at: Local)
    | Drained
    | Ticked(order: seq<Key>, fails: set<Key>, walks: Walks)
    | Exited(order: seq<Key>, fails: set<Key>, walks: Walks)

  ghost predicate AllHosted(env: Env, c: Chunk) {
    forall at :: at in c.entities ==> Hosted(env.blocks, c.sections, at, c.entities[at])
  }

  /** Chunks the engine can hold. */
  ghost predicate Sound(env: Env, c: Chunk) {
    ValidChunk(c) && AllHosted(env, c)
  }

  ghost predicate ValidEvent(env: Env, w: World, e: Event) {
    match e
    case Streamed(key) => key.dimension <= 2
    case Edited(key, c, _) => key.dimension <= 2 && Sound(env, c)
    case EntitySet(_, at, _) => ValidLocal(at)
    case EntityRemoved(_, _) => true
    case Drained => true
    case Ticked(order, _, walks) => EnumeratesKeys(order, w.dirty) && WalksOk(walks, w.chunks)
    case Exited(order, _, walks) => EnumeratesKeys(order, w.dirty) && WalksOk(walks, w.chunks)
  }

  lemma WalksStay(w: World, walks: Walks)
    requires WalksOk(walks, w.chunks)
    ensures forall k :: k in w.chunks ==> forall at :: at in walks(k) ==> at in w.chunks[k].entities
  {}

  ghost function Step(env: Env, w: World, e: Event): World
    requires ValidEvent(env, w, e) && w.dirty <= w.chunks.Keys
  {
    match e
    case Streamed(key) => Stream(env, w, key)
    case Edited(key, c, unqueued) => Edit(w, key, c, unqueued)
    case EntitySet(key, at, entity) => SetEntity(env, w, key, at, entity)
    case EntityRemoved(key, at) => RemoveEntity(w, key, at)
    case Drained => Drain(w)
    case Ticked(order, fails, walks) =>
      WalksStay(w, walks);
      if w.ticker + 1 < env.config.interval then w.(ticker := w.ticker + 1)
      else Flush(env, w.(ticker := 0), order, env.config.maxSaves, fails, walks)
    case Exited(order, fails, walks) =>
      WalksStay(w, walks);
      Flush(env, w, order, 0, fails, walks)
  }

  // ---- clean chunks are stored ------------------------------------------------------------

  ghost predicate EnvOk(env: Env) {
    && NamesLaw(env.blocks)
    && forall key :: Sound(env, env.generate(key)) && env.generate(key).entities == map[]
  }

  /** Equal, except for light when that is not stored. */
  predicate SameBut(c: Chunk, d: Chunk, regenerateLight: bool) {
    c == if regenerateLight then d.(light := c.light) else d
  }

  ghost predicate Clean(env: Env, w: World, key: Key)
    requires key in w.chunks
  {
    SameBut(w.chunks[key], LoadOrGenerate(env, w.store, key), env.config.regenerateLight)
  }

  ghost predicate WorldOk(env: Env, w: World) {
    && w.dirty <= w.chunks.Keys && w.pending <= w.chunks.Keys
    && (forall k :: k in w.chunks ==> k.dimension <= 2 && Sound(env, w.chunks[k]))
    && (forall k :: k in w.chunks && k !in w.dirty && k !in w.pending ==> Clean(env, w, k))
  }

  // ---- whatever tree is read, the chunk is sound ----------------------------------------------

  lemma WordsFromLongs(ls: seq<int>)
    ensures Words(AsWords(ls))
  {}

  lemma ReadPaletteIsValid(t: Tree)
    ensures var p := ReadPalette(t); p.Some? ==> ValidPalette(p.value)
  {
    var ls := GetLongs(t, "data");
    if ls.Some? { WordsFromLongs(ls.value); }
    hide Find, Words, AsWords;
  }

  lemma ReadSectionIsValid(t: Tree)
    ensures ReadSection(t).Some? ==> ValidSection(ReadSection(t).value)
  {
    var (states, biome) := (GetBranch(t, "block_states"), GetBranch(t, "biome"));
    if states.Some? { ReadPaletteIsValid(states.value); }
    if biome.Some? { ReadPaletteIsValid(biome.value); }
    hide ReadPalette, GetBranch, Find, ValidPalette;
  }

  lemma {:induction false} ReadSectionsAreValid(ts: seq<Tree>)
    ensures var ss := ReadSections(ts); ss.Some? ==> forall i :: 0 <= i < |ss.value| ==> ValidSection(ss.value[i])
  {
    if ts != [] {
      ReadSectionsAreValid(ts[..|ts| - 1]);
      ReadSectionIsValid(ts[|ts| - 1]);
      hide ReadSection, ValidSection;
    }
  }

  lemma ReadLightIsValid(t: Tree)
    ensures var l := ReadLight(t); l.Some? ==> ValidLight(l.value)
  {
    forall ls ensures Words(AsWords(ls)) { WordsFromLongs(ls); }
    hide GetLongs, Words, AsWords;
  }

  predicate HeightsFit(es: seq<(Position, BlockEntity)>) {
    forall i :: 0 <= i < |es| ==> I16.InRange(es[i].0.y)
  }

  lemma {:induction false} RestoreIsSound(k: Blocks, sections: seq<Section>, es: seq<(Position, BlockEntity)>)
    requires HeightsFit(es)
    ensures var r := Restore(k, sections, es); forall at :: at in r ==> ValidLocal(at) && Hosted(k, sections, at, r[at])
  {
    if es != [] {
      RestoreIsSound(k, sections, es[..|es| - 1]);
      hide Hosted;
    }
  }

  lemma ReadEntityInRange(k: Blocks, t: Tree)
    ensures ReadEntity(k, t).Some? ==> I16.InRange(ReadEntity(k, t).value.0.y)
  {
    hide Find, HasMetadata, GetInt;
  }

  lemma {:induction false} ReadEntitiesInRange(k: Blocks, ts: seq<Tree>)
    ensures ReadEntities(k, ts).Some? ==> HeightsFit(ReadEntities(k, ts).value)
  {
    if ts != [] {
      hide ReadEntity, IntType.InRange, IntType.Wrap;
      ReadEntitiesInRange(k, ts[..|ts| - 1]);
      ReadEntityInRange(k, ts[|ts| - 1]);
    }
  }

  lemma ReadPartsAreSound(k: Blocks, t: Tree)
    ensures SectionsOf(t).Some? ==> forall i :: 0 <= i < |SectionsOf(t).value| ==> ValidSection(SectionsOf(t).value[i])
    ensures LightOf(t).Some? ==> ValidLight(LightOf(t).value)
    ensures EntitiesOf(k, t).Some? ==> HeightsFit(EntitiesOf(k, t).value)
  {
    match Find(t.tags, "sections") {
      case Some(Trees(ts)) => ReadSectionsAreValid(ts);
      case _ =>
    }
    match Find(t.tags, "block_entities") {
      case Some(Trees(ts)) => ReadEntitiesInRange(k, ts);
      case _ =>
    }
    var b := GetBranch(t, "light");
    if b.Some? { ReadLightIsValid(b.value); }
    assert ValidLight(FullSky);
    hide Find, ReadSections, ReadEntities, ReadLight, ValidSection, Repeated;
  }

  /** Any tree that reads back at all gives a sound chunk. */
  lemma ReadChunkIsSound(env: Env, t: Tree)
    ensures var r := ReadChunk(env.blocks, t); r.Some? ==> Sound(env, r.value.chunk)
  {
    ReadPartsAreSound(env.blocks, t);
    if ReadChunk(env.blocks, t).Some? {
      RestoreIsSound(env.blocks, SectionsOf(t).value, EntitiesOf(env.blocks, t).value);
    }
    hide SectionsOf, LightOf, EntitiesOf, Restore, Heightmap, ValidSection, ValidLight, Find, Hosted;
  }

  // ---- steps -----------------------------------------------------------------------------------

  /** A saved chunk loads back as itself. */
  lemma SavedLoads(env: Env, w: World, key: Key, walk: seq<Local>)
    requires EnvOk(env) && key in w.chunks && key.dimension <= 2 && Sound(env, w.chunks[key])
    requires Enumerates(walk, w.chunks[key].entities)
    ensures forall i :: 0 <= i < |walk| ==> walk[i] in w.chunks[key].entities
    ensures var r := ReadChunk(env.blocks, SavedTree(env, key, w.chunks[key], walk));
            r.Some? && SameBut(w.chunks[key], r.value.chunk, env.config.regenerateLight)
  {
    ChunkRoundTrip(env.blocks, key.dimension, key.x, key.z, w.chunks[key], walk, !env.config.regenerateLight);
    EntitiesSurvive(env.blocks, w.chunks[key], !env.config.regenerateLight);
    hide ReadChunk, ChunkTree, HostedOf, Hosted;
  }

  /** A flush leaves no chunk unmarked that a load would not give back. */
  lemma FlushedIsClean(env: Env, w: World, order: seq<Key>, limit: nat, fails: set<Key>, walks: Walks, key: Key)
    requires EnvOk(env) && WorldOk(env, w) && EnumeratesKeys(order, w.dirty) && WalksOk(walks, w.chunks)
    requires key in w.chunks && if key in w.dirty then key in Saves(order, limit, fails) else key !in w.pending
    ensures forall k :: k in w.chunks ==> forall at :: at in walks(k) ==> at in w.chunks[k].entities
    ensures Clean(env, Flush(env, w, order, limit, fails, walks), key)
  {
    hide ReadChunk, Saves, SavedTree, Sound, EnvOk;
    WalksStay(w, walks);
    var saved := Saves(order, limit, fails);
    if key in saved {
      SavedLoads(env, w, key, walks(key));
    } else {
      assert Clean(env, w, key);
    }
    hide WorldOk, EnumeratesKeys, WalksOk, SameBut;
  }

  lemma FlushOk(env: Env, w: World, order: seq<Key>, limit: nat, fails: set<Key>, walks: Walks)
    requires EnvOk(env) && WorldOk(env, w) && EnumeratesKeys(order, w.dirty) && WalksOk(walks, w.chunks)
    ensures forall k :: k in w.chunks ==> forall at :: at in walks(k) ==> at in w.chunks[k].entities
    ensures WorldOk(env, Flush(env, w, order, limit, fails, walks))
  {
    WalksStay(w, walks);
    var t := Flush(env, w, order, limit, fails, walks);
    hide ReadChunk, Sound, EnvOk, Saves, SavedTree, Clean, EnumeratesKeys;
    forall k | k in t.chunks && k !in t.dirty && k !in t.pending ensures Clean(env, t, k) {
      FlushedIsClean(env, w, order, limit, fails, walks, k);
    }
  }

  lemma LoadIsSound(env: Env, store: map<Key, Tree>, key: Key)
    requires EnvOk(env)
    ensures Sound(env, LoadOrGenerate(env, store, key))
  {
    if key in store { ReadChunkIsSound(env, store[key]); }
    assert Sound(env, env.generate(key));
    hide ReadChunk, Sound;
  }

  lemma StreamOk(env: Env, w: World, key: Key)
    requires EnvOk(env) && WorldOk(env, w) && key.dimension <= 2
    ensures WorldOk(env, Stream(env, w, key))
  {
    if key !in w.chunks {
      LoadIsSound(env, w.store, key);
      var t := Stream(env, w, key);
      hide LoadOrGenerate, Sound, EnvOk;
      assert Clean(env, t, key);
      forall k | k in t.chunks && k !in t.dirty && k !in t.pending ensures Clean(env, t, k) {
        if k != key { assert Clean(env, w, k); }
      }
    }
  }

  lemma StepOk(env: Env, w: World, e: Event)
    requires EnvOk(env) && WorldOk(env, w) && ValidEvent(env, w, e)
    ensures WorldOk(env, Step(env, w, e))
  {
    match e
    case Streamed(key) => StreamOk(env, w, key);
    case Edited(key, c, unqueued) => EditOk(env, w, key, c, unqueued);
    case EntitySet(key, at, entity) => SetEntityOk(env, w, key, at, entity);
    case EntityRemoved(key, at) => RemoveEntityOk(env, w, key, at);
    case Drained => DrainOk(env, w);
    case Ticked(order, fails, walks) =>
      TickerOk(env, w);
      hide WorldOk, Flush, EnvOk;
      FlushOk(env, w.(ticker := 0), order, env.config.maxSaves, fails, walks);
    case Exited(order, fails, walks) => FlushOk(env, w, order, 0, fails, walks);
  }

  lemma EditOk(env: Env, w: World, key: Key, c: Chunk, unqueued: bool)
    requires WorldOk(env, w) && key.dimension <= 2 && Sound(env, c)
    ensures WorldOk(env, Edit(w, key, c, unqueued))
  {
    var t := Edit(w, key, c, unqueued);
    hide Sound, LoadOrGenerate;
    forall k | k in t.chunks && k !in t.dirty && k !in t.pending ensures Clean(env, t, k) {
      assert Clean(env, w, k);
    }
  }

  lemma SetEntityOk(env: Env, w: World, key: Key, at: Local, e: BlockEntity)
    requires WorldOk(env, w) && ValidLocal(at)
    ensures WorldOk(env, SetEntity(env, w, key, at, e))
  {
    var t := SetEntity(env, w, key, at, e);
    if key in w.chunks && Hosted(env.blocks, w.chunks[key].sections, at, e) {
      assert Sound(env, w.chunks[key]);
      assert Sound(env, t.chunks[key]);
      hide Sound, LoadOrGenerate;
      forall k | k in t.chunks && k !in t.dirty && k !in t.pending ensures Clean(env, t, k) {
        assert Clean(env, w, k);
      }
    }
  }

  lemma RemoveEntityOk(env: Env, w: World, key: Key, at: Local)
    requires WorldOk(env, w)
    ensures WorldOk(env, RemoveEntity(w, key, at))
  {
    var t := RemoveEntity(w, key, at);
    if key in w.chunks && at in w.chunks[key].entities {
      assert Sound(env, w.chunks[key]);
      assert Sound(env, t.chunks[key]);
      hide Sound, LoadOrGenerate;
      forall k | k in t.chunks && k !in t.dirty && k !in t.pending ensures Clean(env, t, k) {
        assert Clean(env, w, k);
      }
    }
  }

  lemma DrainOk(env: Env, w: World)
    requires WorldOk(env, w)
    ensures WorldOk(env, Drain(w))
  {
    hide Sound, LoadOrGenerate;
    forall k | k in w.chunks && k !in Drain(w).dirty ensures Clean(env, Drain(w), k) {
      assert Clean(env, w, k);
    }
  }

  lemma TickerOk(env: Env, w: World)
    requires WorldOk(env, w)
    ensures WorldOk(env, w.(ticker := 0)) && WorldOk(env, w.(ticker := w.ticker + 1))
  {
    hide Sound, LoadOrGenerate;
    forall k | k in w.chunks && k !in w.dirty && k !in w.pending ensures Clean(env, w.(ticker := 0), k) && Clean(env, w.(ticker := w.ticker + 1), k) {
      assert Clean(env, w, k);
    }
  }

  ghost predicate Run(env: Env, run: seq<World>, events: seq<Event>) {
    && |run| == |events| + 1
    && run[0].chunks == map[] && run[0].dirty == {} && run[0].pending == {}
    && forall k :: 0 <= k < |events| ==> StepTo(env, run[k], events[k], run[k + 1])
  }

  ghost predicate StepTo(env: Env, w: World, e: Event, t: World) {
    ValidEvent(env, w, e) && w.dirty <= w.chunks.Keys && t == Step(env, w, e)
  }

  /** Over every run, from any store and whatever writes fail, a chunk with neither the
      dirty marker nor a queued update is what loading or generating it now would give,
      up to light when light is regenerated. */
  lemma {:induction false} CleanIsStored(env: Env, run: seq<World>, events: seq<Event>, k: nat)
    requires EnvOk(env) && Run(env, run, events) && k < |run|
    ensures WorldOk(env, run[k])
  {
    if k > 0 {
      CleanIsStored(env, run, events, k - 1);
      assert StepTo(env, run[k - 1], events[k - 1], run[k]);
      StepOk(env, run[k - 1], events[k - 1]);
    }
  }

  // ---- what a loaded chunk holds -----------------------------------------------------------------

  function NextWhole(env: Env, w: World, e: Event, key: Key, before: Option<Chunk>): Option<Chunk> {
    match e
    case Streamed(k) => if k == key && before.None? then Some(LoadOrGenerate(env, w.store, key)) else before
    case Edited(k, c, _) => if k == key then Some(c) else before
    case _ => before
  }

  /** The chunk as the events last put it there whole: streamed in, or with its blocks edited. */
  ghost function Whole(env: Env, run: seq<World>, events: seq<Event>, i: nat, key: Key): Option<Chunk>
    requires |run| == |events| + 1 && i < |run|
  {
    if i == 0 then None else NextWhole(env, run[i - 1], events[i - 1], key, Whole(env, run, events, i - 1, key))
  }

  function EntityAt(c: Chunk, at: Local): Option<BlockEntity> {
    if at in c.entities then Some(c.entities[at]) else None
  }

  function NextTold(env: Env, w: World, e: Event, key: Key, at: Local, whole: Option<Chunk>, before: Option<BlockEntity>): Option<BlockEntity> {
    match e
    case Streamed(k) => if k == key && whole.None? then EntityAt(LoadOrGenerate(env, w.store, key), at) else before
    case Edited(k, c, _) => if k == key then EntityAt(c, at) else before
    case EntitySet(k, l, x) => if k == key && l == at && whole.Some? && Hosted(env.blocks, whole.value.sections, at, x) then Some(x) else before
    case EntityRemoved(k, l) => if k == key && l == at then None else before
    case _ => before
  }

  /** The last word of the events on one place of a chunk: the entity set there last, none
      after a removal, and else what the whole chunk brought along. */
  ghost function Told(env: Env, run: seq<World>, events: seq<Event>, i: nat, key: Key, at: Local): Option<BlockEntity>
    requires |run| == |events| + 1 && i < |run|
  {
    if i == 0 then None
    else NextTold(env, run[i - 1], events[i - 1], key, at, Whole(env, run, events, i - 1, key), Told(env, run, events, i - 1, key, at))
  }

  ghost predicate HoldsWhatIsTold(w: World, key: Key, at: Local, whole: Option<Chunk>, told: Option<BlockEntity>) {
    && (key in w.chunks <==> whole.Some?)
    && (if key in w.chunks then
          w.chunks[key] == whole.value.(entities := w.chunks[key].entities) && EntityAt(w.chunks[key], at) == told
        else told.None?)
  }

  lemma HeldNext(env: Env, w: World, e: Event, key: Key, at: Local, whole: Option<Chunk>, told: Option<BlockEntity>)
    requires ValidEvent(env, w, e) && w.dirty <= w.chunks.Keys && HoldsWhatIsTold(w, key, at, whole, told)
    ensures HoldsWhatIsTold(Step(env, w, e), key, at, NextWhole(env, w, e, key, whole), NextTold(env, w, e, key, at, whole, told))
  {
    hide LoadOrGenerate, Hosted, EnumeratesKeys, WalksOk, Sound, SavedTrees, Saves;
  }

  /** Over every run: a chunk is loaded once it has been streamed in or edited, its blocks are
      those it came with, and each place holds what was last said of that place of that chunk. */
  lemma {:induction false} WhatIsHeld(env: Env, run: seq<World>, events: seq<Event>, i: nat, key: Key, at: Local)
    requires Run(env, run, events) && i < |run|
    ensures HoldsWhatIsTold(run[i], key, at, Whole(env, run, events, i, key), Told(env, run, events, i, key, at))
  {
    if i > 0 {
      WhatIsHeld(env, run, events, i - 1, key, at);
      assert StepTo(env, run[i - 1], events[i - 1], run[i]);
      hide Step, ValidEvent, HoldsWhatIsTold, NextWhole, NextTold;
      HeldNext(env, run[i - 1], events[i - 1], key, at, Whole(env, run, events, i - 1, key), Told(env, run, events, i - 1, key, at));
    }
  }

  /** The event sets or changes something in that chunk. */
  predicate Touches(e: Event, key: Key) {
    match e
    case Edited(k, _, _) => k == key
    case EntitySet(k, _, _) => k == key
    case EntityRemoved(k, _) => k == key
    case _ => false
  }

  /** Over every run, only chunks that were changed are marked or queued. */
  lemma {:induction false} OnlyChangedAreMarked(env: Env, run: seq<World>, events: seq<Event>, i: nat, key: Key)
    requires Run(env, run, events) && i < |run| && key in run[i].dirty + run[i].pending
    ensures exists j :: 0 <= j < i && Touches(events[j], key)
  {
    if i > 0 {
      assert StepTo(env, run[i - 1], events[i - 1], run[i]);
      if key in run[i - 1].dirty + run[i - 1].pending {
        OnlyChangedAreMarked(env, run, events, i - 1, key);
      } else {
        assert Touches(events[i - 1], key);
      }
      hide LoadOrGenerate, Hosted, EnumeratesKeys, WalksOk, Sound, SavedTrees, Saves;
    }
  }

  // ---- between an edit of a block entity and the marker --------------------------------------

  /** Setting a block entity on a chunk that was stored leaves it unmarked, and still
      stored if and only if the very same entity was there before. */
  lemma SetUncovers(env: Env, w: World, key: Key, at: Local, e: BlockEntity)
    requires WorldOk(env, w) && key in w.chunks && key !in w.dirty && key !in w.pending
    requires Hosted(env.blocks, w.chunks[key].sections, at, e)
    ensures var (c, t) := (w.chunks[key], SetEntity(env, w, key, at, e));
            key !in t.dirty && (Clean(env, t, key) <==> at in c.entities && c.entities[at] == e)
  {
    assert Clean(env, w, key);
    var c := w.chunks[key];
    if at in c.entities && c.entities[at] == e { assert c.entities[at := e] == c.entities; }
    hide LoadOrGenerate, Sound;
  }

  /** Removing one leaves the chunk unmarked and no longer stored. */
  lemma RemoveUncovers(env: Env, w: World, key: Key, at: Local)
    requires WorldOk(env, w) && key in w.chunks && key !in w.dirty && key !in w.pending && at in w.chunks[key].entities
    ensures var t := RemoveEntity(w, key, at); key !in t.dirty && !Clean(env, t, key)
  {
    assert Clean(env, w, key);
    assert at !in w.chunks[key].entities - {at};
    hide LoadOrGenerate, Sound;
  }

  // ---- what a flush gets done --------------------------------------------------------------------

  lemma {:induction false} SavesAll(order: seq<Key>, fails: set<Key>)
    ensures forall k :: k in order ==> (k in Saves(order, 0, fails) <==> k !in fails)
  {
    if order != [] {
      SavesAll(order[..|order| - 1], fails);
      assert order == order[..|order| - 1] + [order[|order| - 1]];
    }
  }

  function Writable(order: seq<Key>, fails: set<Key>): set<Key> {
    set k | k in order && k !in fails
  }

  lemma WritableSnoc(order: seq<Key>, fails: set<Key>)
    requires order != [] && Distinct(order)
    ensures var (rest, k) := (order[..|order| - 1], order[|order| - 1]);
            Distinct(rest) && |Writable(order, fails)| == |Writable(rest, fails)| + if k in fails then 0 else 1
  {
    var (rest, k) := (order[..|order| - 1], order[|order| - 1]);
    assert order == rest + [k] && k !in rest;
    assert Writable(order, fails) == Writable(rest, fails) + if k in fails then {} else {k};
  }

  lemma {:induction false} SavesCount(order: seq<Key>, limit: nat, fails: set<Key>)
    requires Distinct(order)
    ensures var n := |Writable(order, fails)|;
            |Saves(order, limit, fails)| == if limit == 0 || n <= limit then n else limit
  {
    if order != [] {
      var (rest, k) := (order[..|order| - 1], order[|order| - 1]);
      assert Distinct(rest);
      SavesCount(rest, limit, fails);
      WritableSnoc(order, fails);
      hide Writable, Distinct;
    }
  }

  /** A flush saves, of the chunks whose write succeeds, the first of the query up to its limit. */
  lemma {:induction false} SavesTheFirst(order: seq<Key>, limit: nat, fails: set<Key>, i: nat)
    requires Distinct(order) && i < |order|
    ensures order[i] in Saves(order, limit, fails) <==>
            order[i] !in fails && (limit == 0 || |Writable(order[..i], fails)| < limit)
  {
    var n := |order| - 1;
    assert Distinct(order[..n]);
    if i < n {
      SavesTheFirst(order[..n], limit, fails, i);
      assert order[..n][..i] == order[..i] && order[n] != order[i];
    } else {
      SavesCount(order[..n], limit, fails);
      assert order[n] !in order[..n];
    }
    hide Distinct, Writable;
  }

  /** After an exit only the chunks whose write failed are still dirty. */
  lemma ExitSavesEverything(env: Env, w: World, order: seq<Key>, fails: set<Key>, walks: Walks)
    requires WorldOk(env, w) && ValidEvent(env, w, Exited(order, fails, walks))
    ensures Step(env, w, Exited(order, fails, walks)).dirty == w.dirty * fails
  {
    SavesAll(order, fails);
    hide Saves;
    WalksStay(w, walks);
  }

  /** The chunk a server started anew on the store of w streams in. */
  function Reloaded(env: Env, w: World, key: Key): Chunk {
    Stream(env, World(map[], {}, {}, w.store, 0), key).chunks[key]
  }

  /** A server started anew after an exit without errors streams a chunk in as it was, up
      to light when light is regenerated, if and only if the chunk was marked or already
      stored. */
  lemma SurvivesRestart(env: Env, w: World, order: seq<Key>, walks: Walks, key: Key)
    requires EnvOk(env) && WorldOk(env, w) && ValidEvent(env, w, Exited(order, {}, walks)) && key in w.chunks
    ensures SameBut(w.chunks[key], Reloaded(env, Step(env, w, Exited(order, {}, walks)), key), env.config.regenerateLight) <==>
            key in w.dirty || Clean(env, w, key)
  {
    SavesAll(order, {});
    WalksStay(w, walks);
    var left := Step(env, w, Exited(order, {}, walks));
    if key in w.dirty {
      FlushedIsClean(env, w, order, 0, {}, walks, key);
      assert Clean(env, left, key);
    } else {
      assert LoadOrGenerate(env, left.store, key) == LoadOrGenerate(env, w.store, key);
    }
    hide Saves, ReadChunk, Sound, SavedTree;
  }

  /** The whole world survives such a restart if and only if each chunk with queued updates
      is marked or already stored: in particular when the queues were drained. */
  lemma WorldSurvives(env: Env, w: World, order: seq<Key>, walks: Walks)
    requires EnvOk(env) && WorldOk(env, w) && ValidEvent(env, w, Exited(order, {}, walks))
    ensures var left := Step(env, w, Exited(order, {}, walks));
            (forall k :: k in w.chunks ==> SameBut(w.chunks[k], Reloaded(env, left, k), env.config.regenerateLight)) <==>
            (forall k :: k in w.pending && k !in w.dirty ==> Clean(env, w, k))
  {
    var left := Step(env, w, Exited(order, {}, walks));
    forall k | k in w.chunks
      ensures SameBut(w.chunks[k], Reloaded(env, left, k), env.config.regenerateLight) <==> k in w.dirty || Clean(env, w, k)
    {
      SurvivesRestart(env, w, order, walks, k);
    }
    hide Step, Clean, SameBut, Reloaded, Sound;
  }

  /** A chunk is generated where nothing is stored. */
  lemma FirstStreamed(env: Env, key: Key)
    requires EnvOk(env) && key.dimension <= 2
    ensures var w := Stream(env, World(map[], {}, {}, map[], 0), key);
            WorldOk(env, w) && w == World(map[key := env.generate(key)], {}, {}, map[], 0) && env.generate(key).entities == map[]
  {
    var empty := World(map[], {}, {}, map[], 0);
    assert WorldOk(env, empty);
    StreamOk(env, empty, key);
    hide Sound, ReadChunk, WorldOk, Clean;
  }

  lemma SetIsLost(env: Env, w: World, key: Key, at: Local, e: BlockEntity, walks: Walks)
    requires EnvOk(env) && WorldOk(env, w) && key in w.chunks && w.dirty == {} && w.pending == {} && ValidLocal(at)
    requires Hosted(env.blocks, w.chunks[key].sections, at, e) && at !in w.chunks[key].entities
    requires WalksOk(walks, SetEntity(env, w, key, at, e).chunks)
    ensures var (edited, gone) := (SetEntity(env, w, key, at, e), Exited([], {}, walks));
            && ValidEvent(env, edited, gone) && edited.dirty == {} && key in edited.chunks
            && !SameBut(edited.chunks[key], Reloaded(env, Step(env, edited, gone), key), env.config.regenerateLight)
  {
    SetUncovers(env, w, key, at, e);
    SetEntityOk(env, w, key, at, e);
    var edited := SetEntity(env, w, key, at, e);
    assert EnumeratesKeys([], edited.dirty);
    hide Sound, ReadChunk, EnvOk, WorldOk, Clean, SavedTree, LoadOrGenerate, Hosted, SameBut, Reloaded, Step;
    SurvivesRestart(env, edited, [], walks, key);
  }

  function OneWalk(key: Key, at: Local): Walks {
    k => if k == key then [at] else []
  }

  lemma OneWalkOk(chunks: map<Key, Chunk>, key: Key, at: Local)
    requires chunks.Keys == {key} && chunks[key].entities.Keys == {at}
    ensures WalksOk(OneWalk(key, at), chunks)
  {}

  lemma CallSteps(env: Env, w: World, key: Key, at: Local, e: BlockEntity)
    requires w.dirty <= w.chunks.Keys && key.dimension <= 2 && ValidLocal(at)
    ensures StepTo(env, w, Streamed(key), Stream(env, w, key))
    ensures StepTo(env, w, EntitySet(key, at, e), SetEntity(env, w, key, at, e))
  {
    hide Flush, Hosted, LoadOrGenerate;
  }

  lemma ThreeSteps(env: Env, a: World, b: World, c: World, d: World, e: Event, f: Event, g: Event)
    requires a.chunks == map[] && a.dirty == {} && a.pending == {}
    requires StepTo(env, a, e, b) && StepTo(env, b, f, c) && StepTo(env, c, g, d)
    ensures Run(env, [a, b, c, d], [e, f, g])
  {
    hide StepTo;
  }

  /** A block entity set between the sync and the exit is lost: the shortest run that
      shows it, for every world whose generator makes a block that hosts the entity. */
  lemma LostOnExit(env: Env, key: Key, at: Local, e: BlockEntity) returns (run: seq<World>, events: seq<Event>)
    requires EnvOk(env) && key.dimension <= 2 && ValidLocal(at)
    requires Hosted(env.blocks, env.generate(key).sections, at, e)
    ensures |events| == 3 && events[0] == Streamed(key) && events[1] == EntitySet(key, at, e) && events[2].Exited?
    ensures events[2].fails == {} && Run(env, run, events)
    ensures key in run[3].chunks && !SameBut(run[3].chunks[key], Reloaded(env, run[3], key), env.config.regenerateLight)
  {
    var walks := OneWalk(key, at);
    var gone := Exited([], {}, walks);
    var empty := World(map[], {}, {}, map[], 0);
    var streamed := Stream(env, empty, key);
    var edited := SetEntity(env, streamed, key, at, e);
    FirstStreamed(env, key);
    OneWalkOk(edited.chunks, key, at);
    SetIsLost(env, streamed, key, at, e, walks);
    CallSteps(env, empty, key, at, e);
    CallSteps(env, streamed, key, at, e);
    var last := Step(env, edited, gone);
    assert last.chunks == edited.chunks;
    assert StepTo(env, edited, gone, last);
    hide *;
    ThreeSteps(env, empty, streamed, edited, last, Streamed(key), EntitySet(key, at, e), gone);
    run, events := [empty, streamed, edited, last], [Streamed(key), EntitySet(key, at, e), gone];
  }

  /** Such a world exists. */
  lemma SomeHost() returns (env: Env, key: Key, at: Local, e: BlockEntity)
    ensures EnvOk(env) && key.dimension <= 2 && ValidLocal(at) && Hosted(env.blocks, env.generate(key).sections, at, e)
  {
    var blocks := Blocks((kind: nat) => Repeated(kind, 'x'), name => Some(|name|), (_, _) => Some(0), (_, _) => true);
    env := Env(blocks, _ => Chunk([], [], FullSky, map[]), Config(0, 0, false));
    key, at, e := Key(0, 0, 0), Local(0, 0, 0), BlockEntity(0, []);
    EmptyChunkIsSound(env);
    hide ValidChunk, Sound;
  }

  lemma EmptyChunkIsSound(env: Env)
    ensures Sound(env, Chunk([], [], FullSky, map[]))
  {
    assert ValidLight(FullSky);
  }

  /** A periodic flush happens exactly when the interval has run out; then it writes as
      many of the dirty chunks whose write succeeds as its limit allows. */
  lemma PeriodicFlush(env: Env, w: World, order: seq<Key>, fails: set<Key>, walks: Walks)
    requires WorldOk(env, w) && ValidEvent(env, w, Ticked(order, fails, walks))
    ensures var (t, due) := (Step(env, w, Ticked(order, fails, walks)), w.ticker + 1 >= env.config.interval);
            var (n, limit) := (|w.dirty - fails|, env.config.maxSaves);
      && t.ticker == (if due then 0 else w.ticker + 1)
      && t.dirty <= w.dirty && w.dirty - t.dirty <= w.dirty - fails
      && |t.dirty| == |w.dirty| - (if !due then 0 else if limit == 0 || n <= limit then n else limit)
  {
    hide Saves, SavedTrees, WorldOk, EnumeratesKeys;
    FlushCount(w.dirty, order, env.config.maxSaves, fails);
    WalksStay(w, walks);
  }

  lemma FlushCount(dirty: set<Key>, order: seq<Key>, limit: nat, fails: set<Key>)
    requires EnumeratesKeys(order, dirty)
    ensures var left := dirty - set k | k in Saves(order, limit, fails);
            && dirty - left <= dirty - fails
            && |left| == |dirty| - if limit == 0 || |dirty - fails| <= limit then |dirty - fails| else limit
  {
    var saved := Saves(order, limit, fails);
    SavesCount(order, limit, fails);
    assert Writable(order, fails) == dirty - fails;
    SavesOnce(order, limit, fails);
    SetOfOrder(saved, set k | k in saved);
    assert (set k | k in saved) <= dirty;
    hide Saves;
  }

  ghost predicate Distinct(keys: seq<Key>) {
    forall i, j :: 0 <= i < j < |keys| ==> keys[i] != keys[j]
  }

  lemma {:induction false} SavesOnce(order: seq<Key>, limit: nat, fails: set<Key>)
    requires Distinct(order)
    ensures Distinct(Saves(order, limit, fails))
  {
    if order != [] {
      var n := |order| - 1;
      SavesOnce(order[..n], limit, fails);
      var before := Saves(order[..n], limit, fails);
      assert Distinct(before);
      assert order[n] !in order[..n];
      assert Distinct(before + [order[n]]);
    }
  }

  lemma {:induction false} SetOfOrder(order: seq<Key>, keys: set<Key>)
    requires EnumeratesKeys(order, keys)
    ensures |keys| == |order|
  {
    if order == [] {
      assert keys == {};
    } else {
      var n := |order| - 1;
      assert forall k :: k in order <==> k in order[..n] || k == order[n];
      SetOfOrder(order[..n], keys - {order[n]});
    }
  }

  // ---- the systems -------------------------------------------------------------------------------

  class Server {
    const env: Env
    var chunks: map<Key, Chunk>
    var dirty: set<Key>
    var pending: set<Key>
    var store: map<Key, Tree>
    var ticker: nat

    constructor (env: Env, store: map<Key, Tree>)
      ensures this.env == env && View() == World(map[], {}, {}, store, 0)
    {
      this.env, chunks, dirty, pending, this.store, ticker := env, map[], {}, {}, store, 0;
    }

    ghost function View(): World
      reads this
    {
      World(chunks, dirty, pending, store, ticker)
    }

    /** `set_block_entity`: the entity it replaced, or a refusal. */
    method SetBlockEntity(key: Key, at: Local, e: BlockEntity) returns (ok: bool, replaced: Option<BlockEntity>)
      modifies this`chunks, this`pending
      ensures View() == SetEntity(env, old(View()), key, at, e)
      ensures ok <==> key in old(chunks) && Hosted(env.blocks, old(chunks)[key].sections, at, e)
      ensures replaced == if ok && at in old(chunks)[key].entities then Some(old(chunks)[key].entities[at]) else None
    {
      if key !in chunks {
        return false, None;
      }
      var c := chunks[key];
      var state := env.blocks.blockAt(c.sections, at);
      if state.None? || !env.blocks.hosts(e.kind, state.value) {
        return false, None;
      }
      pending := pending + {key};
      replaced := if at in c.entities then Some(c.entities[at]) else None;
      chunks := chunks[key := c.(entities := c.entities[at := e])];
      ok := true;
    }

    method RemoveBlockEntity(key: Key, at: Local) returns (removed: Option<BlockEntity>)
      modifies this`chunks, this`pending
      ensures View() == RemoveEntity(old(View()), key, at)
      ensures removed == if key in old(chunks) && at in old(chunks)[key].entities then Some(old(chunks)[key].entities[at]) else None
    {
      if key !in chunks || at !in chunks[key].entities {
        return None;
      }
      var c := chunks[key];
      removed := Some(c.entities[at]);
      chunks := chunks[key := c.(entities := c.entities - {at})];
      pending := pending + {key};
    }

    method SyncBlockEntities()
      modifies this`dirty, this`pending
      ensures View() == Drain(old(View()))
    {
      var rest := pending;
      while rest != {}
        invariant rest <= old(pending)
        invariant dirty == old(dirty) + (old(pending) - rest) && pending == rest
        decreases rest
      {
        var key :| key in rest;
        dirty := dirty + {key};
        rest := rest - {key};
        pending := pending - {key};
      }
    }

    method SaveChunk(key: Key, walk: seq<Local>, fails: set<Key>) returns (ok: bool)
      requires key in chunks && forall i :: 0 <= i < |walk| ==> walk[i] in chunks[key].entities
      modifies this`store
      ensures ok == (key !in fails)
      ensures store == if ok then old(store)[key := SavedTree(env, key, chunks[key], walk)] else old(store)
    {
      if key in fails {
        return false;
      }
      var tree := ChunkTree(env.blocks, key.dimension, key.x, key.z, chunks[key], walk, !env.config.regenerateLight);
      store := store[key := tree];
      return true;
    }

    /** Saves in query order up to the limit; markers go as commands, after the loop. */
    method FlushDirty(order: seq<Key>, limit: nat, fails: set<Key>, walks: Walks) returns (saved: nat)
      requires forall k :: k in order ==> k in chunks
      requires forall k :: k in chunks ==> forall at :: at in walks(k) ==> at in chunks[k].entities
      modifies this`store, this`dirty
      ensures View() == Flush(env, old(View()), order, limit, fails, walks)
      ensures saved == |Saves(order, limit, fails)|
    {
      hide Saves, SavedTree, SavedTrees, Stored;
      saved := 0;
      ghost var done: seq<Key> := [];
      var cleared: set<Key> := {};
      var i := 0;
      NothingYet(order, limit, fails);
      StoredNothing(env, chunks, walks, store);
      while i < |order|
        invariant 0 <= i <= |order|
        invariant done == Saves(order[..i], limit, fails) && saved == |done|
        invariant dirty == old(dirty)
        invariant Stored(env, chunks, walks, old(store), done, store, cleared)
      {
        if limit != 0 && saved >= limit {
          NothingMore(order, i, limit, fails);
          break;
        }
        NextSave(order, i, limit, fails);
        StoredNext(env, chunks, walks, old(store), done, order[i], store, cleared);
        var ok := SaveChunk(order[i], walks(order[i]), fails);
        if ok {
          cleared := cleared + {order[i]};
          saved := saved + 1;
          done := done + [order[i]];
        }
        i := i + 1;
      }
      assert i == |order| ==> order[..i] == order;
      assert done == Saves(order, limit, fails);
      StoredIs(env, chunks, walks, old(store), done, store, cleared);
      dirty := dirty - cleared;
    }

    /** The store after the chunks of `done`, whose markers are in `cleared`. */
    static ghost predicate Stored(env: Env, chunks: map<Key, Chunk>, walks: Walks, before: map<Key, Tree>, done: seq<Key>,
                                  store: map<Key, Tree>, cleared: set<Key>)
      requires forall k :: k in chunks ==> forall at :: at in walks(k) ==> at in chunks[k].entities
    {
      && cleared == (set k | k in done) && (forall k :: k in done ==> k in chunks)
      && store == before + SavedTrees(env, chunks, done, walks)
    }

    static lemma StoredNothing(env: Env, chunks: map<Key, Chunk>, walks: Walks, store: map<Key, Tree>)
      requires forall k :: k in chunks ==> forall at :: at in walks(k) ==> at in chunks[k].entities
      ensures Stored(env, chunks, walks, store, [], store, {})
    {
      assert SavedTrees(env, chunks, [], walks) == map[];
    }

    static lemma StoredNext(env: Env, chunks: map<Key, Chunk>, walks: Walks, before: map<Key, Tree>, done: seq<Key>, key: Key,
                            store: map<Key, Tree>, cleared: set<Key>)
      requires forall k :: k in chunks ==> forall at :: at in walks(k) ==> at in chunks[k].entities
      requires key in chunks && Stored(env, chunks, walks, before, done, store, cleared)
      ensures forall i :: 0 <= i < |walks(key)| ==> walks(key)[i] in chunks[key].entities
      ensures Stored(env, chunks, walks, before, done + [key], store[key := SavedTree(env, key, chunks[key], walks(key))], cleared + {key})
    {
      hide SavedTree;
      assert forall i :: 0 <= i < |walks(key)| ==> walks(key)[i] in walks(key);
      assert key in done + [key];
    }

    static lemma StoredIs(env: Env, chunks: map<Key, Chunk>, walks: Walks, before: map<Key, Tree>, done: seq<Key>,
                          store: map<Key, Tree>, cleared: set<Key>)
      requires forall k :: k in chunks ==> forall at :: at in walks(k) ==> at in chunks[k].entities
      requires Stored(env, chunks, walks, before, done, store, cleared)
      ensures cleared == (set k | k in done) && forall k :: k in done ==> k in chunks
      ensures store == before + SavedTrees(env, chunks, done, walks)
    {}

    static lemma NothingYet(order: seq<Key>, limit: nat, fails: set<Key>)
      ensures Saves(order[..0], limit, fails) == []
    {}

    static lemma NextSave(order: seq<Key>, i: nat, limit: nat, fails: set<Key>)
      requires i < |order|
      ensures var before := Saves(order[..i], limit, fails);
              Saves(order[..i + 1], limit, fails) ==
              if (limit != 0 && |before| >= limit) || order[i] in fails then before else before + [order[i]]
    {
      assert order[..i + 1][..i] == order[..i];
    }

    /** Once the limit is reached the rest of the query is skipped. */
    static lemma {:induction false} NothingMore(order: seq<Key>, i: nat, limit: nat, fails: set<Key>)
      requires i <= |order| && limit != 0 && |Saves(order[..i], limit, fails)| >= limit
      ensures Saves(order, limit, fails) == Saves(order[..i], limit, fails)
    {
      if i < |order| {
        assert order[..|order| - 1][..i] == order[..i];
        NothingMore(order[..|order| - 1], i, limit, fails);
      } else {
        assert order[..i] == order;
      }
    }

    method SaveDirtyChunks(order: seq<Key>, fails: set<Key>, walks: Walks)
      requires WorldOk(env, View()) && ValidEvent(env, View(), Ticked(order, fails, walks))
      modifies this`store, this`dirty, this`ticker
      ensures View() == Step(env, old(View()), Ticked(order, fails, walks))
    {
      hide Flush, Sound;
      WalksStay(View(), walks);
      ticker := ticker + 1;
      if ticker < env.config.interval {
        return;
      }
      ticker := 0;
      var _ := FlushDirty(order, env.config.maxSaves, fails, walks);
    }

    method FlushOnExit(order: seq<Key>, fails: set<Key>, walks: Walks)
      requires WorldOk(env, View()) && ValidEvent(env, View(), Exited(order, fails, walks))
      modifies this`store, this`dirty
      ensures View() == Step(env, old(View()), Exited(order, fails, walks))
    {
      hide Flush, Sound;
      WalksStay(View(), walks);
      var _ := FlushDirty(order, 0, fails, walks);
    }
  }
}
