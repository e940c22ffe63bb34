/** The stored form of a chunk in void-world-io/src/format.rs: a tree of named tags.
    Only the tree is modelled; its bytes are the NBT library's. */
module ChunkFormat {
  import opened Options
  import opened Wire

  // ---- trees -------------------------------------------------------------------------

  datatype Tag =
    | Byte(b: int)
    | Short(s: int)
    | Int(i: int)
    | Text(text: string)
    | IntArray(ints: seq<int>)
    | LongArray(longs: seq<int>)
    | Branch(tree: Tree)
    | EmptyList
    | Trees(trees: seq<Tree>)
    | ByteArrays(arrays: seq<seq<int>>)

  datatype Tree = Tree(tags: seq<(string, Tag)>)

  /** The first tag of that name. */
  function Find(tags: seq<(string, Tag)>, name: string): Option<Tag> {
    if tags == [] then None
    else if tags[0].0 == name then Some(tags[0].1)
    else Find(tags[1..], name)
  }

  lemma {:induction false} FoundAt(tags: seq<(string, Tag)>, i: nat)
    requires i < |tags| && forall j :: 0 <= j < i ==> tags[j].0 != tags[i].0
    ensures Find(tags, tags[i].0) == Some(tags[i].1)
  {
    if i > 0 {
      assert tags[0].0 != tags[i].0;
      FoundAt(tags[1..], i - 1);
    }
  }

  lemma {:induction false} NotFound(tags: seq<(string, Tag)>, name: string)
    requires forall j :: 0 <= j < |tags| ==> tags[j].0 != name
    ensures Find(tags, name) == None
  {
    if tags != [] {
      NotFound(tags[1..], name);
    }
  }

  // ---- chunks ------------------------------------------------------------------------

  datatype Palette =
    | SingleValue(id: int)
    | Indirect(bits: int, palette: seq<int>, data: seq<int>)
    | Direct(bits: int, data: seq<int>)

  datatype Section = Section(blockCount: int, blockStates: Palette, biome: Palette)

  datatype Light = Light(
    skyMask: seq<int>,
    blockMask: seq<int>,
    emptySkyMask: seq<int>,
    emptyBlockMask: seq<int>,
    skyArrays: seq<seq<int>>,
    blockArrays: seq<seq<int>>)

  /** Words are unsigned 64-bit integers. */
  predicate Words(ws: seq<int>) {
    forall i :: 0 <= i < |ws| ==> U64.InRange(ws[i])
  }

  predicate ValidPalette(p: Palette) {
    !p.SingleValue? ==> Words(p.data)
  }

  predicate ValidSection(s: Section) {
    ValidPalette(s.blockStates) && ValidPalette(s.biome)
  }

  predicate ValidLight(l: Light) {
    Words(l.skyMask) && Words(l.blockMask) && Words(l.emptySkyMask) && Words(l.emptyBlockMask)
  }

  function Repeated<T>(n: nat, x: T): (r: seq<T>)
    ensures |r| == n && forall i :: 0 <= i < n ==> r[i] == x
  {
    if n == 0 then [] else Repeated(n - 1, x) + [x]
  }

  /** Full sky light over the 26 light sections. */
  const FullSky := Light([0x3FF_FFFF], [0], [0], [0x3FF_FFFF], Repeated(26, Repeated(2048, 0xFF)), [])

  datatype Local = Local(x: int, y: int, z: int)

  datatype Position = Position(x: int, y: int, z: int)

  datatype BlockEntity = BlockEntity(kind: nat, data: seq<(string, Tag)>)

  datatype Chunk = Chunk(sections: seq<Section>, heightmap: seq<int>, light: Light, entities: map<Local, BlockEntity>)

  /** What the engine knows of block entities: names of kinds, the block at a position,
      and which kinds a block state hosts. */
  datatype Blocks = Blocks(
    name: nat -> string,
    fromName: string -> Option<nat>,
    blockAt: (seq<Section>, Local) -> Option<int>,
    hosts: (nat, int) -> bool)

  ghost predicate NamesLaw(k: Blocks) {
    forall kind: nat :: k.fromName(k.name(kind)) == Some(kind)
  }

  predicate Hosted(k: Blocks, sections: seq<Section>, at: Local, e: BlockEntity) {
    var state := k.blockAt(sections, at);
    state.Some? && k.hosts(e.kind, state.value)
  }

  predicate ValidLocal(at: Local) {
    0 <= at.x < 16 && 0 <= at.z < 16 && I16.InRange(at.y)
  }

  ghost predicate ValidChunk(c: Chunk) {
    && (forall i :: 0 <= i < |c.sections| ==> ValidSection(c.sections[i]))
    && ValidLight(c.light)
    && forall at :: at in c.entities ==> ValidLocal(at)
  }

  // ---- writing -------------------------------------------------------------------------

  function AsLongs(ws: seq<int>): (r: seq<int>)
    ensures |r| == |ws| && forall i :: 0 <= i < |ws| ==> r[i] == I64.Wrap(ws[i])
  {
    seq(|ws|, i requires 0 <= i < |ws| => I64.Wrap(ws[i]))
  }

  function AsWords(ls: seq<int>): (r: seq<int>)
    ensures |r| == |ls| && forall i :: 0 <= i < |ls| ==> r[i] == U64.Wrap(ls[i])
  {
    seq(|ls|, i requires 0 <= i < |ls| => U64.Wrap(ls[i]))
  }

  function PaletteTree(p: Palette): Tree {
    match p
    case SingleValue(id) => Tree([("single", Int(id))])
    case Indirect(bits, palette, data) =>
      Tree([("bits", Byte(bits)), ("palette", IntArray(palette)), ("data", LongArray(AsLongs(data)))])
    case Direct(bits, data) => Tree([("bits", Byte(bits)), ("data", LongArray(AsLongs(data)))])
  }

  function SectionTree(s: Section): Tree {
    Tree([("block_count", Short(s.blockCount)),
          ("block_states", Branch(PaletteTree(s.blockStates))),
          ("biome", Branch(PaletteTree(s.biome)))])
  }

  function ArrayList(arrays: seq<seq<int>>): Tag {
    if arrays == [] then EmptyList else ByteArrays(arrays)
  }

  function LightTree(l: Light): Tree {
    Tree([("sky_mask", LongArray(AsLongs(l.skyMask))),
          ("block_mask", LongArray(AsLongs(l.blockMask))),
          ("empty_sky_mask", LongArray(AsLongs(l.emptySkyMask))),
          ("empty_block_mask", LongArray(AsLongs(l.emptyBlockMask))),
          ("sky_arrays", ArrayList(l.skyArrays)),
          ("block_arrays", ArrayList(l.blockArrays))])
  }

  function InChunk(x: int, z: int, at: Local): Position {
    Position(x * 16 + at.x, at.y, z * 16 + at.z)
  }

  function LocalOf(p: Position): Local {
    Local(p.x % 16, p.y, p.z % 16)
  }

  /** The four metadata tags, then the block entity's own. */
  function EntityTree(k: Blocks, p: Position, e: BlockEntity): Tree {
    Tree([("id", Text(k.name(e.kind))), ("x", Int(p.x)), ("y", Int(p.y)), ("z", Int(p.z))] + e.data)
  }

  function SectionTrees(ss: seq<Section>): (ts: seq<Tree>)
    ensures |ts| == |ss| && forall i :: 0 <= i < |ss| ==> ts[i] == SectionTree(ss[i])
  {
    seq(|ss|, i requires 0 <= i < |ss| => SectionTree(ss[i]))
  }

  /** The block entities in the order the table is walked. */
  function EntityTrees(k: Blocks, x: int, z: int, entities: map<Local, BlockEntity>, order: seq<Local>): (ts: seq<Tree>)
    requires forall i :: 0 <= i < |order| ==> order[i] in entities
    ensures |ts| == |order| && forall i :: 0 <= i < |order| ==> ts[i] == EntityTree(k, InChunk(x, z, order[i]), entities[order[i]])
  {
    seq(|order|, i requires 0 <= i < |order| => EntityTree(k, InChunk(x, z, order[i]), entities[order[i]]))
  }

  function TreeList(ts: seq<Tree>): Tag {
    if ts == [] then EmptyList else Trees(ts)
  }

  ghost predicate Enumerates(order: seq<Local>, entities: map<Local, BlockEntity>) {
    && (forall at :: at in order <==> at in entities)
    && (forall i, j :: 0 <= i < j < |order| ==> order[i] != order[j])
  }

  const FORMAT_VERSION := 1

  function ChunkTree(k: Blocks, dimension: nat, x: int, z: int, c: Chunk, order: seq<Local>, includeLight: bool): Tree
    requires forall i :: 0 <= i < |order| ==> order[i] in c.entities
  {
    Tree([("version", Int(FORMAT_VERSION)),
          ("dimension", Int(dimension)),
          ("x", Int(x)),
          ("z", Int(z)),
          ("sections", Trees(SectionTrees(c.sections))),
          ("heightmaps", Branch(Tree([("motion_blocking", LongArray(c.heightmap))]))),
          ("block_entities", TreeList(EntityTrees(k, x, z, c.entities, order)))]
         + if includeLight then [("light", Branch(LightTree(c.light)))] else [])
  }

  // ---- reading; `None` is a corrupt tree ---------------------------------------------------

  function GetInt(t: Tree, name: string): Option<int> {
    match Find(t.tags, name)
    case Some(Int(i)) => Some(i)
    case _ => None
  }

  function GetLongs(t: Tree, name: string): Option<seq<int>> {
    match Find(t.tags, name)
    case Some(LongArray(ls)) => Some(ls)
    case _ => None
  }

  function GetWords(t: Tree, name: string): Option<seq<int>> {
    match GetLongs(t, name)
    case Some(ls) => Some(AsWords(ls))
    case None => None
  }

  function GetArrays(t: Tree, name: string): seq<seq<int>> {
    match Find(t.tags, name)
    case Some(ByteArrays(arrays)) => arrays
    case _ => []
  }

  function GetBranch(t: Tree, name: string): Option<Tree> {
    match Find(t.tags, name)
    case Some(Branch(b)) => Some(b)
    case _ => None
  }

  function ReadPalette(t: Tree): Option<Palette> {
    match Find(t.tags, "bits")
    case Some(Byte(bits)) =>
      (match GetWords(t, "data")
       case None => None
       case Some(data) =>
         if Find(t.tags, "palette").None? then Some(Direct(bits, data))
         else
           match Find(t.tags, "palette")
           case Some(IntArray(palette)) => Some(Indirect(bits, palette, data))
           case _ => None)
    case _ =>
      match GetInt(t, "single")
      case Some(id) => Some(SingleValue(id))
      case None => None
  }

  function ReadSection(t: Tree): Option<Section> {
    match (Find(t.tags, "block_count"), GetBranch(t, "block_states"), GetBranch(t, "biome"))
    case (Some(Short(n)), Some(states), Some(biome)) =>
      (match (ReadPalette(states), ReadPalette(biome))
       case (Some(a), Some(b)) => Some(Section(n, a, b))
       case _ => None)
    case _ => None
  }

  function ReadSections(ts: seq<Tree>): Option<seq<Section>> {
    if ts == [] then Some([])
    else
      match (ReadSections(ts[..|ts| - 1]), ReadSection(ts[|ts| - 1]))
      case (Some(ss), Some(s)) => Some(ss + [s])
      case _ => None
  }

  function ReadLight(t: Tree): Option<Light> {
    match (GetWords(t, "sky_mask"), GetWords(t, "block_mask"), GetWords(t, "empty_sky_mask"), GetWords(t, "empty_block_mask"))
    case (Some(a), Some(b), Some(c), Some(d)) =>
      Some(Light(a, b, c, d, GetArrays(t, "sky_arrays"), GetArrays(t, "block_arrays")))
    case _ => None
  }

  predicate HasMetadata(t: Tree) {
    |t.tags| >= 4 && t.tags[0].0 == "id" && t.tags[1].0 == "x" && t.tags[2].0 == "y" && t.tags[3].0 == "z"
  }

  function ReadEntity(k: Blocks, t: Tree): Option<(Position, BlockEntity)> {
    if !HasMetadata(t) then None
    else
      match (Find(t.tags, "id"), GetInt(t, "x"), GetInt(t, "y"), GetInt(t, "z"))
      case (Some(Text(name)), Some(x), Some(y), Some(z)) =>
        (match k.fromName(name)
         case Some(kind) => Some((Position(x, I16.Wrap(y), z), BlockEntity(kind, t.tags[4..])))
         case None => None)
      case _ => None
  }

  function ReadEntities(k: Blocks, ts: seq<Tree>): Option<seq<(Position, BlockEntity)>> {
    if ts == [] then Some([])
    else
      match (ReadEntities(k, ts[..|ts| - 1]), ReadEntity(k, ts[|ts| - 1]))
      case (Some(es), Some(e)) => Some(es + [e])
      case _ => None
  }

  /** Entities are put back one by one, those their block does not host are dropped. */
  function Restore(k: Blocks, sections: seq<Section>, es: seq<(Position, BlockEntity)>): map<Local, BlockEntity> {
    if es == [] then map[]
    else
      var (before, (p, e)) := (Restore(k, sections, es[..|es| - 1]), es[|es| - 1]);
      if Hosted(k, sections, LocalOf(p), e) then before[LocalOf(p) := e] else before
  }

  datatype Loaded = Loaded(dimension: nat, x: int, z: int, chunk: Chunk)

  function Heightmap(t: Tree): seq<int> {
    match GetBranch(t, "heightmaps")
    case Some(b) => (match GetLongs(b, "motion_blocking")
                     case Some(ls) => ls
                     case None => Repeated(37, 0))
    case None => Repeated(37, 0)
  }

  function LightOf(t: Tree): Option<Light> {
    match GetBranch(t, "light")
    case Some(b) => ReadLight(b)
    case None => Some(FullSky)
  }

  function SectionsOf(t: Tree): Option<seq<Section>> {
    match Find(t.tags, "sections")
    case Some(Trees(ts)) => ReadSections(ts)
    case Some(EmptyList) => Some([])
    case _ => None
  }

  function EntitiesOf(k: Blocks, t: Tree): Option<seq<(Position, BlockEntity)>> {
    match Find(t.tags, "block_entities")
    case Some(Trees(ts)) => ReadEntities(k, ts)
    case Some(EmptyList) => Some([])
    case None => Some([])
    case _ => None
  }

  function ReadChunk(k: Blocks, t: Tree): Option<Loaded> {
    match (GetInt(t, "dimension"), GetInt(t, "x"), GetInt(t, "z"))
    case (Some(dimension), Some(x), Some(z)) =>
      if !(0 <= dimension <= 2) then None
      else
        (match (SectionsOf(t), LightOf(t), EntitiesOf(k, t))
         case (Some(sections), Some(light), Some(es)) =>
           Some(Loaded(dimension, x, z, Chunk(sections, Heightmap(t), light, Restore(k, sections, es))))
         case _ => None)
    case _ => None
  }

  // ---- parts of the round trip ----------------------------------------------------------

  lemma WordsBack(ws: seq<int>)
    requires Words(ws)
    ensures AsWords(AsLongs(ws)) == ws
  {
    forall i | 0 <= i < |ws| ensures U64.Wrap(I64.Wrap(ws[i])) == ws[i] {
      WordBack(ws[i]);
    }
  }

  lemma WordBack(w: int)
    requires U64.InRange(w)
    ensures U64.Wrap(I64.Wrap(w)) == w
  {}

  lemma PaletteBack(p: Palette)
    requires ValidPalette(p)
    ensures ReadPalette(PaletteTree(p)) == Some(p)
  {
    var tags := PaletteTree(p).tags;
    Distinct3("bits", "palette", "data");
    match p
    case SingleValue(_) =>
      assert |"bits"| != |"single"|;
      NotFound(tags, "bits");
      FoundAt(tags, 0);
    case Indirect(_, _, data) =>
      WordsBack(data);
      FoundAt(tags, 0);
      FoundAt(tags, 1);
      FoundAt(tags, 2);
    case Direct(_, data) =>
      WordsBack(data);
      FoundAt(tags, 0);
      FoundAt(tags, 1);
      NotFound(tags, "palette");
  }

  lemma Distinct3(a: string, b: string, c: string)
    requires a == "bits" && b == "palette" && c == "data"
    ensures a != b && b != c && a != c
  {
    assert a[0] != c[0];
    assert |a| != |b|;
    assert |b| != |c|;
  }

  lemma SectionBack(s: Section)
    requires ValidSection(s)
    ensures ReadSection(SectionTree(s)) == Some(s)
  {
    var tags := SectionTree(s).tags;
    assert |"block_count"| == 11 && |"block_states"| == 12 && |"biome"| == 5;
    FoundAt(tags, 0);
    FoundAt(tags, 1);
    FoundAt(tags, 2);
    PaletteBack(s.blockStates);
    PaletteBack(s.biome);
    hide Find, ReadPalette, PaletteTree;
  }

  lemma {:induction false} SectionsBack(ss: seq<Section>)
    requires forall i :: 0 <= i < |ss| ==> ValidSection(ss[i])
    ensures ReadSections(SectionTrees(ss)) == Some(ss)
  {
    if ss != [] {
      var n := |ss| - 1;
      SectionsBack(ss[..n]);
      assert SectionTrees(ss)[..n] == SectionTrees(ss[..n]);
      SectionBack(ss[n]);
      assert ss == ss[..n] + [ss[n]];
      hide ReadSection, SectionTree;
    }
  }

  lemma LightNames()
    ensures |"sky_mask"| == 8 && |"block_mask"| == 10 && |"empty_sky_mask"| == 14 && |"empty_block_mask"| == 16
    ensures |"sky_arrays"| == 10 && |"block_arrays"| == 12 && "sky_arrays" != "block_mask"
  {
    assert "sky_arrays"[0] != "block_mask"[0];
  }

  lemma LightFields(l: Light)
    ensures var tags := LightTree(l).tags;
      && Find(tags, "sky_mask") == Some(LongArray(AsLongs(l.skyMask)))
      && Find(tags, "block_mask") == Some(LongArray(AsLongs(l.blockMask)))
      && Find(tags, "empty_sky_mask") == Some(LongArray(AsLongs(l.emptySkyMask)))
      && Find(tags, "empty_block_mask") == Some(LongArray(AsLongs(l.emptyBlockMask)))
      && Find(tags, "sky_arrays") == Some(ArrayList(l.skyArrays))
      && Find(tags, "block_arrays") == Some(ArrayList(l.blockArrays))
  {
    var tags := LightTree(l).tags;
    LightNames();
    hide Find, AsLongs, ArrayList;
    FoundAt(tags, 0);
    FoundAt(tags, 1);
    FoundAt(tags, 2);
    FoundAt(tags, 3);
    FoundAt(tags, 4);
    FoundAt(tags, 5);
  }

  lemma LightBack(l: Light)
    requires ValidLight(l)
    ensures ReadLight(LightTree(l)) == Some(l)
  {
    LightFields(l);
    WordsBack(l.skyMask);
    WordsBack(l.blockMask);
    WordsBack(l.emptySkyMask);
    WordsBack(l.emptyBlockMask);
    hide Find, AsLongs, AsWords, LightTree;
  }

  lemma EntityNames()
    ensures |"id"| == 2 && |"x"| == 1 && "x" != "y" && "x" != "z" && "y" != "z"
  {
    assert "x"[0] != "y"[0] && "x"[0] != "z"[0] && "y"[0] != "z"[0];
  }

  /** The payload comes back whole, also where it repeats the names of the metadata. */
  lemma EntityBack(k: Blocks, x: int, z: int, at: Local, e: BlockEntity)
    requires NamesLaw(k) && ValidLocal(at)
    ensures ReadEntity(k, EntityTree(k, InChunk(x, z, at), e)) == Some((InChunk(x, z, at), e))
    ensures LocalOf(InChunk(x, z, at)) == at
  {
    var t := EntityTree(k, InChunk(x, z, at), e);
    EntityNames();
    FoundAt(t.tags, 0);
    FoundAt(t.tags, 1);
    FoundAt(t.tags, 2);
    FoundAt(t.tags, 3);
    assert t.tags[4..] == e.data;
    WrapInRange(I16, at.y);
    hide Find;
  }

  function Placed(x: int, z: int, entities: map<Local, BlockEntity>, order: seq<Local>): (r: seq<(Position, BlockEntity)>)
    requires forall i :: 0 <= i < |order| ==> order[i] in entities
    ensures |r| == |order| && forall i :: 0 <= i < |order| ==> r[i] == (InChunk(x, z, order[i]), entities[order[i]])
  {
    seq(|order|, i requires 0 <= i < |order| => (InChunk(x, z, order[i]), entities[order[i]]))
  }

  lemma {:induction false} EntitiesBack(k: Blocks, x: int, z: int, entities: map<Local, BlockEntity>, order: seq<Local>)
    requires NamesLaw(k) && forall i :: 0 <= i < |order| ==> order[i] in entities && ValidLocal(order[i])
    ensures ReadEntities(k, EntityTrees(k, x, z, entities, order)) == Some(Placed(x, z, entities, order))
  {
    if order != [] {
      var n := |order| - 1;
      EntitiesBack(k, x, z, entities, order[..n]);
      assert EntityTrees(k, x, z, entities, order)[..n] == EntityTrees(k, x, z, entities, order[..n]);
      EntityBack(k, x, z, order[n], entities[order[n]]);
      assert Placed(x, z, entities, order) == Placed(x, z, entities, order[..n]) + [(InChunk(x, z, order[n]), entities[order[n]])];
      hide ReadEntity, EntityTree, InChunk, NamesLaw;
    }
  }

  /** Those of the entities whose block hosts them. */
  function HostedOf(k: Blocks, sections: seq<Section>, entities: map<Local, BlockEntity>): map<Local, BlockEntity> {
    map at | at in entities && Hosted(k, sections, at, entities[at]) :: entities[at]
  }

  lemma {:induction false} RestoreBack(k: Blocks, sections: seq<Section>, x: int, z: int, entities: map<Local, BlockEntity>, order: seq<Local>)
    requires forall i :: 0 <= i < |order| ==> order[i] in entities && ValidLocal(order[i])
    requires forall i, j :: 0 <= i < j < |order| ==> order[i] != order[j]
    ensures var r := Restore(k, sections, Placed(x, z, entities, order));
            && (forall at :: at in r <==> at in order && Hosted(k, sections, at, entities[at]))
            && (forall at :: at in r ==> r[at] == entities[at])
  {
    if order != [] {
      var n := |order| - 1;
      var placed := Placed(x, z, entities, order);
      RestoreBack(k, sections, x, z, entities, order[..n]);
      assert placed[..n] == Placed(x, z, entities, order[..n]);
      LocalBack(x, z, order[n]);
      assert forall at :: at in order <==> at in order[..n] || at == order[n];
      hide Hosted;
    }
  }

  lemma LocalBack(x: int, z: int, at: Local)
    requires ValidLocal(at)
    ensures LocalOf(InChunk(x, z, at)) == at
  {}

  // ---- full sky light ----------------------------------------------------------------------

  predicate Bit(w: nat, i: nat) {
    if i == 0 then w % 2 == 1 else Bit(w / 2, i - 1)
  }

  function Ones(n: nat): nat {
    if n == 0 then 0 else 2 * Ones(n - 1) + 1
  }

  lemma {:induction false} OnesBits(n: nat, i: nat)
    ensures Bit(Ones(n), i) <==> i < n
  {
    if n == 0 {
      if i > 0 { OnesBits(0, i - 1); }
    } else if i > 0 {
      assert (2 * Ones(n - 1) + 1) / 2 == Ones(n - 1);
      OnesBits(n - 1, i - 1);
    }
  }

  predicate Marks(mask: seq<int>, i: nat) {
    |mask| > i / 64 && mask[i / 64] >= 0 && Bit(mask[i / 64], i % 64)
  }

  /** The light a chunk gets when none is stored: each of the 26 light sections has an array of
      4096 sky lights, two to a byte and all of them 15, and is marked as empty of block light. */
  lemma FullSkyIsFull(i: nat)
    ensures (Marks(FullSky.skyMask, i) <==> i < 26) && (Marks(FullSky.emptyBlockMask, i) <==> i < 26)
    ensures !Marks(FullSky.blockMask, i) && !Marks(FullSky.emptySkyMask, i)
    ensures |FullSky.skyArrays| == 26 && FullSky.blockArrays == []
    ensures i < 26 ==> |FullSky.skyArrays[i]| * 2 == 4096 &&
                       forall j :: 0 <= j < 2048 ==> FullSky.skyArrays[i][j] % 16 == 15 == FullSky.skyArrays[i][j] / 16
  {
    assert Ones(13) == 0x1FFF;
    assert Ones(26) == 0x3FF_FFFF;
    OnesBits(26, i % 64);
    OnesBits(0, i % 64);
  }

  // ---- the round trip ---------------------------------------------------------------------

  lemma ChunkNames()
    ensures |"version"| == 7 && |"dimension"| == 9 && |"x"| == 1 && |"z"| == 1 && "x" != "z"
    ensures |"sections"| == 8 && |"heightmaps"| == 10 && |"block_entities"| == 14 && |"light"| == 5
  {
    assert "x"[0] != "z"[0];
  }

  lemma ChunkFields(k: Blocks, dimension: nat, x: int, z: int, c: Chunk, order: seq<Local>, includeLight: bool)
    requires forall i :: 0 <= i < |order| ==> order[i] in c.entities
    ensures var tags := ChunkTree(k, dimension, x, z, c, order, includeLight).tags;
      && Find(tags, "dimension") == Some(Int(dimension))
      && Find(tags, "x") == Some(Int(x)) && Find(tags, "z") == Some(Int(z))
      && Find(tags, "sections") == Some(Trees(SectionTrees(c.sections)))
      && Find(tags, "heightmaps") == Some(Branch(Tree([("motion_blocking", LongArray(c.heightmap))])))
      && Find(tags, "block_entities") == Some(TreeList(EntityTrees(k, x, z, c.entities, order)))
      && Find(tags, "light") == if includeLight then Some(Branch(LightTree(c.light))) else None
  {
    var tags := ChunkTree(k, dimension, x, z, c, order, includeLight).tags;
    ChunkNames();
    hide Find;
    FoundAt(tags, 1);
    FoundAt(tags, 2);
    FoundAt(tags, 3);
    FoundAt(tags, 4);
    FoundAt(tags, 5);
    FoundAt(tags, 6);
    if includeLight { FoundAt(tags, 7); } else { NotFound(tags, "light"); }
  }

  lemma HeightmapBack(t: Tree, heightmap: seq<int>)
    requires Find(t.tags, "heightmaps") == Some(Branch(Tree([("motion_blocking", LongArray(heightmap))])))
    ensures Heightmap(t) == heightmap
  {
    FoundAt([("motion_blocking", LongArray(heightmap))], 0);
  }

  /** What a stored chunk is read back as: light is regenerated when it was left out, and
      block entities their block no longer hosts are dropped. */
  function Restored(k: Blocks, c: Chunk, includeLight: bool): Chunk {
    Chunk(c.sections, c.heightmap, if includeLight then c.light else FullSky, HostedOf(k, c.sections, c.entities))
  }

  lemma SectionsOfBack(t: Tree, ss: seq<Section>)
    requires Find(t.tags, "sections") == Some(Trees(SectionTrees(ss)))
    requires forall i :: 0 <= i < |ss| ==> ValidSection(ss[i])
    ensures SectionsOf(t) == Some(ss)
  {
    SectionsBack(ss);
    hide ReadSections, SectionTrees, Find;
  }

  lemma LightOfBack(t: Tree, l: Light, includeLight: bool)
    requires Find(t.tags, "light") == if includeLight then Some(Branch(LightTree(l))) else None
    requires ValidLight(l)
    ensures LightOf(t) == Some(if includeLight then l else FullSky)
  {
    LightBack(l);
    hide ReadLight, LightTree, Find;
  }

  lemma EntitiesOfBack(k: Blocks, t: Tree, x: int, z: int, entities: map<Local, BlockEntity>, order: seq<Local>)
    requires NamesLaw(k) && forall i :: 0 <= i < |order| ==> order[i] in entities && ValidLocal(order[i])
    requires Find(t.tags, "block_entities") == Some(TreeList(EntityTrees(k, x, z, entities, order)))
    ensures EntitiesOf(k, t) == Some(Placed(x, z, entities, order))
  {
    EntitiesBack(k, x, z, entities, order);
    if order == [] {
      assert EntityTrees(k, x, z, entities, order) == [] && Placed(x, z, entities, order) == [];
    }
    hide ReadEntities, EntityTree, Find, NamesLaw;
  }

  lemma Assembled(k: Blocks, t: Tree, dimension: nat, x: int, z: int, sections: seq<Section>, light: Light, es: seq<(Position, BlockEntity)>)
    requires Find(t.tags, "dimension") == Some(Int(dimension)) && Find(t.tags, "x") == Some(Int(x)) && Find(t.tags, "z") == Some(Int(z))
    requires dimension <= 2 && SectionsOf(t) == Some(sections) && LightOf(t) == Some(light) && EntitiesOf(k, t) == Some(es)
    ensures ReadChunk(k, t) == Some(Loaded(dimension, x, z, Chunk(sections, Heightmap(t), light, Restore(k, sections, es))))
  {
    hide Find, SectionsOf, LightOf, EntitiesOf, Heightmap, Restore;
  }

  lemma HostedBack(k: Blocks, sections: seq<Section>, x: int, z: int, entities: map<Local, BlockEntity>, order: seq<Local>)
    requires Enumerates(order, entities) && forall i :: 0 <= i < |order| ==> order[i] in entities && ValidLocal(order[i])
    ensures Restore(k, sections, Placed(x, z, entities, order)) == HostedOf(k, sections, entities)
  {
    RestoreBack(k, sections, x, z, entities, order);
    hide Restore, Placed, Hosted;
  }

  /** Reading back a written chunk gives its place, sections, palettes, heightmap, light
      and hosted block entities, in whatever order those were written. */
  lemma ChunkRoundTrip(k: Blocks, dimension: nat, x: int, z: int, c: Chunk, order: seq<Local>, includeLight: bool)
    requires NamesLaw(k) && ValidChunk(c) && Enumerates(order, c.entities) && dimension <= 2
    ensures forall i :: 0 <= i < |order| ==> order[i] in c.entities
    ensures ReadChunk(k, ChunkTree(k, dimension, x, z, c, order, includeLight)) == Some(Loaded(dimension, x, z, Restored(k, c, includeLight)))
  {
    assert forall i :: 0 <= i < |order| ==> order[i] in order && order[i] in c.entities && ValidLocal(order[i]);
    var t := ChunkTree(k, dimension, x, z, c, order, includeLight);
    ChunkFields(k, dimension, x, z, c, order, includeLight);
    HostedBack(k, c.sections, x, z, c.entities, order);
    hide Find, ChunkTree, NamesLaw, ValidLight, ValidSection, SectionTrees, EntityTrees, LightTree, Placed, Restore, HostedOf,
         ReadChunk, SectionsOf, LightOf, EntitiesOf, Heightmap, TreeList, Enumerates;
    SectionsOfBack(t, c.sections);
    LightOfBack(t, c.light, includeLight);
    HeightmapBack(t, c.heightmap);
    EntitiesOfBack(k, t, x, z, c.entities, order);
    Assembled(k, t, dimension, x, z, c.sections, if includeLight then c.light else FullSky, Placed(x, z, c.entities, order));
  }

  /** A dimension the server does not know is refused. */
  lemma OtherDimension(k: Blocks, dimension: nat, x: int, z: int, c: Chunk, order: seq<Local>, includeLight: bool)
    requires dimension > 2 && forall i :: 0 <= i < |order| ==> order[i] in c.entities
    ensures ReadChunk(k, ChunkTree(k, dimension, x, z, c, order, includeLight)).None?
  {
    ChunkFields(k, dimension, x, z, c, order, includeLight);
    hide Find, ChunkTree;
  }

  /** Without stored heights a chunk is flat: 256 zeros of nine bits, seven to a word. */
  lemma FlatWithoutHeights(t: Tree)
    requires Find(t.tags, "heightmaps").None?
    ensures 7 * (|Heightmap(t)| - 1) < 256 <= 7 * |Heightmap(t)| && forall i :: 0 <= i < |Heightmap(t)| ==> Heightmap(t)[i] == 0
  {}

  /** A tree is read as a block entity if and only if it begins with the four metadata tags,
      name, x, y and z in this order, and the name is one of a kind of block entity. */
  lemma EntityAccepted(k: Blocks, t: Tree, p: Position, e: BlockEntity)
    ensures ReadEntity(k, t) == Some((p, e)) <==>
            exists name: string, y: int {:trigger k.fromName(name), I16.Wrap(y)} ::
              && t.tags == [("id", Text(name)), ("x", Int(p.x)), ("y", Int(y)), ("z", Int(p.z))] + e.data
              && k.fromName(name) == Some(e.kind) && p.y == I16.Wrap(y)
  {
    EntityNames();
    if HasMetadata(t) {
      FoundAt(t.tags, 0);
      FoundAt(t.tags, 1);
      FoundAt(t.tags, 2);
      FoundAt(t.tags, 3);
      if ReadEntity(k, t) == Some((p, e)) {
        var (name, y) := (t.tags[0].1.text, t.tags[2].1.i);
        assert t.tags == t.tags[..4] + t.tags[4..];
        assert t.tags[..4] == [("id", Text(name)), ("x", Int(p.x)), ("y", Int(y)), ("z", Int(p.z))];
        assert k.fromName(name) == Some(e.kind) && p.y == I16.Wrap(y);
      }
    }
    hide Find;
  }

  /** Block entities survive exactly when every one is hosted by its block. */
  lemma EntitiesSurvive(k: Blocks, c: Chunk, includeLight: bool)
    ensures Restored(k, c, includeLight).entities == c.entities <==>
            forall at :: at in c.entities ==> Hosted(k, c.sections, at, c.entities[at])
  {
    var h := HostedOf(k, c.sections, c.entities);
    if h == c.entities {
      forall at | at in c.entities ensures Hosted(k, c.sections, at, c.entities[at]) { assert at in h; }
    }
  }
}
