/** Whole sessions of terrain packets. Whatever arrives, the world holds what the packets
decode to, applied in order; and when they are what a server sends, the world reached
through the wire bytes, the packed sections and the in-place updates is the one a plain map
of blocks describes. */
module TerrainRuns {
  import opened Words
  import opened Wire
  import opened Sections
  import opened ChunkParse
  import opened PlainSections
  import opened Terrain
  import opened WorldPackets
  import Nbt

  datatype Heightmaps = Tag(root: Option<Nbt.Tree>) | Maps(maps: seq<HeightMap>)
  datatype HeightMap = HeightMap(kind: int32, longs: seq<int64>)

  /** A section before it is packed: its blocks, and the form to pack them in. */
  datatype PlainSection = PlainSection(counts: bytes, blocks: Grid, form: Form, biomes: Packed)
  {
    function States(): seq<int32> { Layers(blocks) }
  }

  /** What the server says about terrain. Each packet may go on with data nobody reads. */
  datatype Update =
    | Chunk(x: int32, z: int32, heightmaps: Heightmaps, sections: seq<PlainSection>, trailer: bytes)
    | Forget(x: int32, z: int32, trailer: bytes)
    | OneBlock(pos: Pos, state: int32, trailer: bytes)
    | SectionChanges(section: Pos, changes: seq<Change>, trailer: bytes)
    | Respawned(payload: bytes)

  ghost predicate HeightmapsOk(h: Heightmaps, fmt: Format) {
    match h
    case Tag(root) => fmt.nbtHeightmaps && Nbt.RootFits(root)
    case Maps(maps) =>
      !fmt.nbtHeightmaps && |maps| < WORD32 / 2 && forall k | 0 <= k < |maps| :: |maps[k].longs| < WORD32 / 2
  }

  function Wired(s: PlainSection): SectionWire
    requires Carries(s.form, s.States())
  {
    SectionWire(s.counts, Encoded(s.form, s.States()), s.biomes)
  }

  function AllWired(ss: seq<PlainSection>): (ws: seq<SectionWire>)
    requires forall s | s in ss :: Carries(s.form, s.States())
    ensures |ws| == |ss| && forall k | 0 <= k < |ss| :: ws[k] == Wired(ss[k])
  {
    if ss == [] then [] else [Wired(ss[0])] + AllWired(ss[1..])
  }

  /** A section whose states keep below the limit, in a form this version's format has. */
  predicate PlainOk(s: PlainSection, fmt: Format, limit: int) {
    && IsGrid(s.blocks) && Carries(s.form, s.States()) && Within(s.form, s.States(), limit)
    && SectionExpressible(Wired(s), fmt)
  }

  /** The packed sections are short enough to be counted by a VarInt. */
  predicate ChunkFits(sections: seq<PlainSection>, fmt: Format)
    requires forall s | s in sections :: Carries(s.form, s.States()) && SectionExpressible(Wired(s), fmt)
  {
    AllExpressible(sections, fmt);
    |ColumnBytes(AllWired(sections), fmt)| < WORD32 / 2
  }

  lemma AllExpressible(sections: seq<PlainSection>, fmt: Format)
    requires forall s | s in sections :: Carries(s.form, s.States()) && SectionExpressible(Wired(s), fmt)
    ensures forall w | w in AllWired(sections) :: SectionExpressible(w, fmt)
  {
  }

  /** The updates a vanilla server sends: at most 64 sections, block states below `limit`,
      coordinates in the packed ranges. */
  ghost predicate UpdateOk(u: Update, fmt: Format, limit: int) {
    match u
    case Chunk(_, _, heightmaps, sections, _) =>
      && HeightmapsOk(heightmaps, fmt) && |sections| <= 64
      && (forall s | s in sections :: PlainOk(s, fmt, limit))
      && ChunkFits(sections, fmt)
    case Forget(_, _, _) => true
    case OneBlock(pos, state, _) => Packable(pos) && 0 <= state < limit
    case SectionChanges(section, changes, _) =>
      && SectionPackable(section) && |changes| < WORD32 / 2
      && forall c | c in changes :: ChangeOk(c) && c.state < limit
    case Respawned(_) => true
  }

  // ----------------------------------------------------------------- the plain meaning

  function GlobalPos(section: Pos, c: Change): Pos
    requires SectionPackable(section) && ChangeOk(c)
  {
    Pos(section.x * 16 + c.dx, section.y * 16 + c.dy, section.z * 16 + c.dz)
  }

  ghost function ChangeAll(m: BlockMap, section: Pos, changes: seq<Change>): BlockMap
    requires SectionPackable(section) && forall c | c in changes :: ChangeOk(c)
  {
    if changes == [] then m
    else ChangeAll(SetBlock(m, GlobalPos(section, changes[0]), changes[0].state), section, changes[1..])
  }

  /** The floor of the world: 64 below zero when a column has more than 16 sections. */
  function WorldFloor(sections: nat): int { if sections > 16 then -64 else 0 }

  /** A coordinate within n sections of the column at x, z. */
  predicate InGrids(x: int32, z: int32, n: nat, p: Pos) {
    && 16 * x <= p.x < 16 * x + 16 && 16 * z <= p.z < 16 * z + 16
    && WorldFloor(n) <= p.y < WorldFloor(n) + 16 * n
  }

  /** The block there, in the grid of its section. */
  ghost function GridBlock(x: int32, z: int32, sections: seq<PlainSection>, p: Pos): int32
    requires (forall s | s in sections :: IsGrid(s.blocks)) && InGrids(x, z, |sections|, p)
  {
    var up := p.y - WorldFloor(|sections|);
    var section := sections[up / 16];
    assert IsGrid(section.blocks);
    section.blocks[up % 16][p.z - 16 * z][p.x - 16 * x]
  }

  ghost function PlainColumn(x: int32, z: int32, sections: seq<PlainSection>): BlockMap
    requires forall s | s in sections :: IsGrid(s.blocks)
  {
    imap p: Pos | InGrids(x, z, |sections|, p) :: GridBlock(x, z, sections, p)
  }

  /** An effect on the plain map. */
  ghost function EffectMeant(m: BlockMap, e: Effect): BlockMap {
    match e
    case Load(key, blocks) => StoreColumn(m, key, ColumnMap(key, Column(Floor(|blocks|), blocks)))
    case Unload(key) => DropColumn(m, key)
    case Set(pos, state) => SetBlock(m, pos, state)
    case Clear => imap[]
  }

  ghost function MeantAll(m: BlockMap, es: seq<Effect>): BlockMap
    decreases |es|
  {
    if es == [] then m else MeantAll(EffectMeant(m, es[0]), es[1..])
  }

  lemma OneMeant(m: BlockMap, e: Effect)
    ensures MeantAll(m, [e]) == EffectMeant(m, e)
  {
    assert MeantAll(EffectMeant(m, e), []) == EffectMeant(m, e);
  }

  /** What a server's packets respect and the parser does not check: sections are well formed
      and states below the limit. */
  ghost predicate EffectOk(e: Effect, limit: int) {
    match e
    case Load(_, blocks) => |blocks| <= 64 && forall b | b in blocks :: WellFormed(b, limit)
    case Set(_, state) => 0 <= state < limit
    case _ => true
  }

  ghost predicate AllOk(es: seq<Effect>, limit: int) { forall e | e in es :: EffectOk(e, limit) }

  ghost function Meaning(m: BlockMap, u: Update, fmt: Format, limit: int): BlockMap
    requires UpdateOk(u, fmt, limit)
  {
    match u
    case Chunk(x, z, _, sections, _) =>
      StoreColumn(m, Key(x, z), PlainColumn(x, z, sections))
    case Forget(x, z, _) => DropColumn(m, Key(x, z))
    case OneBlock(pos, state, _) => SetBlock(m, pos, state)
    case SectionChanges(section, changes, _) => ChangeAll(m, section, changes)
    case Respawned(_) => imap[]
  }

  ghost predicate RunOk(us: seq<Update>, fmt: Format, limit: int) {
    forall k | 0 <= k < |us| :: UpdateOk(us[k], fmt, limit)
  }

  ghost function RunMeaning(m: BlockMap, us: seq<Update>, fmt: Format, limit: int): BlockMap
    requires RunOk(us, fmt, limit)
    decreases |us|
  {
    if us == [] then m
    else Meaning(RunMeaning(m, us[..|us| - 1], fmt, limit), us[|us| - 1], fmt, limit)
  }

  // ------------------------------------------------------------------------ the bytes

  function I32Bytes(v: int32): bytes { BigEndianBytes(v % WORD32, 4) }

  function MapsBytes(maps: seq<HeightMap>): bytes
    requires forall k | 0 <= k < |maps| :: |maps[k].longs| < WORD32 / 2
  {
    if maps == [] then []
    else VarIntBytes(maps[0].kind) + (VarIntBytes(|maps[0].longs|) + LongsBytes(maps[0].longs)) + MapsBytes(maps[1..])
  }

  ghost function HeightmapsBytes(h: Heightmaps, fmt: Format): bytes
    requires HeightmapsOk(h, fmt)
  {
    match h
    case Tag(root) => Nbt.RootBytes(root)
    case Maps(maps) => VarIntBytes(|maps|) + MapsBytes(maps)
  }

  function ChangesBytes(changes: seq<Change>): bytes
    requires forall c | c in changes :: ChangeOk(c)
  {
    if changes == [] then [] else VarLongBytes(PackChange(changes[0])) + ChangesBytes(changes[1..])
  }

  ghost function UpdateBytes(u: Update, fmt: Format, limit: int): bytes
    requires UpdateOk(u, fmt, limit)
  {
    match u
    case Chunk(x, z, heightmaps, sections, trailer) =>
      AllExpressible(sections, fmt);
      var blob := ColumnBytes(AllWired(sections), fmt);
      I32Bytes(x) + (I32Bytes(z) + (HeightmapsBytes(heightmaps, fmt) + (VarIntBytes(|blob|) + (blob + trailer))))
    case Forget(x, z, trailer) => I32Bytes(z) + (I32Bytes(x) + trailer)
    case OneBlock(pos, state, trailer) =>
      I64Bytes(PackBlockPos(pos.x, pos.y, pos.z)) + (VarIntBytes(state) + trailer)
    case SectionChanges(section, changes, trailer) =>
      I64Bytes(PackSection(section.x, section.y, section.z)) +
      (VarIntBytes(|changes|) + (ChangesBytes(changes) + trailer))
    case Respawned(payload) => payload
  }

  function KindOf(u: Update): PacketKind {
    match u
    case Chunk(_, _, _, _, _) => MapChunk
    case Forget(_, _, _) => UnloadChunk
    case OneBlock(_, _, _) => BlockChange
    case SectionChanges(_, _, _) => MultiBlockChange
    case Respawned(_) => Respawn
  }

  // ------------------------------------------- decoding the bytes gives the meaning

  lemma I32ReadAt(v: int32, suffix: bytes)
    ensures I32At(At(I32Bytes(v) + suffix)) == v
    ensures At(I32Bytes(v) + suffix).Skip(4) == At(suffix)
  {
    hide BigEndian, BigEndianBytes, ToI32;
    assert Pow256(4) == WORD32;
    BigEndianRoundTrip(v % WORD32, 4);
    ToI32Mod(v);
    SkipAt(I32Bytes(v), suffix);
  }

  lemma I64ReadAt(v: int64, suffix: bytes)
    ensures ToI64(At(I64Bytes(v) + suffix).Peek(8)) == v
    ensures At(I64Bytes(v) + suffix).Skip(8) == At(suffix)
  {
    hide BigEndian, BigEndianBytes, ToI64;
    I64RoundTrip(v);
    SkipAt(I64Bytes(v), suffix);
  }

  lemma {:induction false} MapsAt(maps: seq<HeightMap>, suffix: bytes)
    requires forall k | 0 <= k < |maps| :: |maps[k].longs| < WORD32 / 2
    ensures AfterMaps(At(MapsBytes(maps) + suffix), |maps|) == At(suffix)
  {
    hide VarIntBytes, LongsBytes, AfterLongs;
    if maps == [] {
      assert MapsBytes(maps) + suffix == suffix;
    } else {
      var kind, count, longs := VarIntBytes(maps[0].kind), VarIntBytes(|maps[0].longs|), LongsBytes(maps[0].longs);
      var rest := MapsBytes(maps[1..]) + suffix;
      assert MapsBytes(maps) + suffix == kind + (count + (longs + rest));
      VarIntAt(maps[0].kind, count + (longs + rest));
      VarIntAt(|maps[0].longs|, longs + rest);
      LongsAt(maps[0].longs, rest);
      MapsAt(maps[1..], suffix);
    }
  }

  lemma HeightmapsAt(h: Heightmaps, fmt: Format, suffix: bytes)
    requires HeightmapsOk(h, fmt)
    ensures AfterHeightmaps(At(HeightmapsBytes(h, fmt) + suffix), fmt) == At(suffix)
  {
    hide VarIntBytes, MapsBytes, AfterMaps, Nbt.TagSpan, Nbt.RootBytes, Nbt.RootFits;
    match h
    case Tag(root) =>
      Nbt.RootSkipped(root, suffix);
      SkipAt(Nbt.RootBytes(root), suffix);
    case Maps(maps) =>
      assert HeightmapsBytes(h, fmt) + suffix == VarIntBytes(|maps|) + (MapsBytes(maps) + suffix);
      VarIntAt(|maps|, MapsBytes(maps) + suffix);
      MapsAt(maps, suffix);
  }

  lemma AbsoluteIsGlobal(section: Pos, c: Change)
    requires SectionPackable(section) && ChangeOk(c)
    ensures Absolute(section, c) == GlobalPos(section, c)
  {
  }

  lemma {:induction false} ChangesDecode(m: BlockMap, section: Pos, changes: seq<Change>, suffix: bytes, limit: int)
    requires SectionPackable(section) && forall c | c in changes :: ChangeOk(c) && c.state < limit
    ensures var o := MultiEffects(At(ChangesBytes(changes) + suffix), section, |changes|);
            !o.err && AllOk(o.effects, limit) && MeantAll(m, o.effects) == ChangeAll(m, section, changes)
    decreases |changes|
  {
    hide VarLongBytes, PackChange, DecodeChange, Absolute, GlobalPos, SetBlock, SectionPackable, ChangeOk;
    if changes != [] {
      var c := changes[0];
      var rest := ChangesBytes(changes[1..]) + suffix;
      assert ChangesBytes(changes) + suffix == VarLongBytes(PackChange(c)) + rest;
      VarLongAt(PackChange(c), rest);
      ChangeRoundTrip(c);
      AbsoluteIsGlobal(section, c);
      ChangeStateSign(c);
      ChangesDecode(SetBlock(m, GlobalPos(section, c), c.state), section, changes[1..], suffix, limit);
      ConsEffects(m, Set(GlobalPos(section, c), c.state), MultiEffects(At(rest), section, |changes| - 1).effects);
    }
  }

  lemma ChangeStateSign(c: Change)
    requires ChangeOk(c)
    ensures 0 <= c.state
  {
  }

  lemma ConsEffects(m: BlockMap, e: Effect, es: seq<Effect>)
    ensures MeantAll(m, [e] + es) == MeantAll(EffectMeant(m, e), es)
  {
    assert ([e] + es)[1..] == es;
  }

  lemma BlocksWellFormed(sections: seq<PlainSection>, fmt: Format, limit: int)
    requires forall s | s in sections :: Carries(s.form, s.States()) && PlainOk(s, fmt, limit)
    ensures forall b | b in BlocksOf(AllWired(sections)) :: WellFormed(b, limit)
  {
    hide Carries, Within, Encoded, WellFormed, SectionExpressible;
    forall k | 0 <= k < |sections| ensures WellFormed(BlocksOf(AllWired(sections))[k], limit) {
      assert PlainOk(sections[k], fmt, limit);
      EncodedWellFormed(sections[k].form, sections[k].States(), limit);
    }
  }

  lemma CellOfPacked(sections: seq<PlainSection>, j: nat, y: nat, z: nat, x: nat)
    requires (forall s | s in sections :: IsGrid(s.blocks) && Carries(s.form, s.States()))
    requires j < |sections| && x < 16 && y < 16 && z < 16
    ensures IsGrid(sections[j].blocks)
    ensures Cell(BlocksOf(AllWired(sections))[j], CellIndex(x, y, z)) == sections[j].blocks[y][z][x]
  {
    hide Encoded, Cell, Carries;
    var s := sections[j];
    assert s in sections;
    LayersAt(s.blocks, y, z, x);
    EncodedCell(s.form, s.States(), CellIndex(x, y, z));
  }

  lemma PackedBlock(x: int32, z: int32, sections: seq<PlainSection>, p: Pos)
    requires forall s | s in sections :: IsGrid(s.blocks) && Carries(s.form, s.States())
    ensures var c := Column(Floor(|sections|), BlocksOf(AllWired(sections)));
            && (InGrids(x, z, |sections|, p) <==> InColumn(p, Key(x, z)) && Spans(c.minY, |c.sections|, p.y))
            && (InGrids(x, z, |sections|, p) ==>
                  0 <= SectionAt(c.minY, p) < |sections|
                  && Cell(c.sections[SectionAt(c.minY, p)], CellAt(c.minY, p)) == GridBlock(x, z, sections, p))
  {
    hide Carries, Encoded, Cell, CellIndex, BlocksOf, AllWired;
    if InGrids(x, z, |sections|, p) {
      var up := p.y - WorldFloor(|sections|);
      CellOfPacked(sections, up / 16, up % 16, p.z - 16 * z, p.x - 16 * x);
      CornerOf(x, p.x);
      CornerOf(z, p.z);
    }
  }

  lemma CornerOf(x: int, at: int)
    requires 16 * x <= at < 16 * x + 16
    ensures at % 16 == at - 16 * x
  {
  }

  /** Reading the packed sections is reading the grids that were packed. */
  lemma PackedColumn(x: int32, z: int32, sections: seq<PlainSection>)
    requires forall s | s in sections :: IsGrid(s.blocks) && Carries(s.form, s.States())
    ensures ColumnMap(Key(x, z), Column(Floor(|sections|), BlocksOf(AllWired(sections)))) == PlainColumn(x, z, sections)
  {
    hide Carries, Encoded, Cell, CellAt, SectionAt, BlocksOf, AllWired, IsGrid, GridBlock, InGrids, InColumn, Spans,
      Floor;
    var c := Column(Floor(|sections|), BlocksOf(AllWired(sections)));
    forall p: Pos
      ensures InGrids(x, z, |sections|, p) <==> InColumn(p, Key(x, z)) && Spans(c.minY, |c.sections|, p.y)
      ensures InGrids(x, z, |sections|, p) ==>
                0 <= SectionAt(c.minY, p) < |sections|
                && Cell(c.sections[SectionAt(c.minY, p)], CellAt(c.minY, p)) == GridBlock(x, z, sections, p)
    {
      PackedBlock(x, z, sections, p);
    }
  }

  lemma ChunkDecodes(m: BlockMap, u: Update, fmt: Format, limit: int)
    requires u.Chunk? && UpdateOk(u, fmt, limit)
    ensures DecodePacket(MapChunk, UpdateBytes(u, fmt, limit), fmt)
         == Outcome([Load(Key(u.x, u.z), BlocksOf(AllWired(u.sections)))], false)
    ensures EffectOk(Load(Key(u.x, u.z), BlocksOf(AllWired(u.sections))), limit)
  {
    hide ColumnBytes, ColumnOf, HeightmapsBytes, AfterHeightmaps, VarIntBytes, I32Bytes, WellFormed, BlocksOf,
      SectionExpressible, Carries, Within, Encoded;
    AllExpressible(u.sections, fmt);
    var blob := ColumnBytes(AllWired(u.sections), fmt);
    var s4 := blob + u.trailer;
    var s3 := VarIntBytes(|blob|) + s4;
    var s2 := HeightmapsBytes(u.heightmaps, fmt) + s3;
    I32ReadAt(u.x, I32Bytes(u.z) + s2);
    I32ReadAt(u.z, s2);
    HeightmapsAt(u.heightmaps, fmt, s3);
    VarIntAt(|blob|, s4);
    assert s4[..|blob|] == blob;
    ColumnRoundTrip(AllWired(u.sections), 0, fmt);
    BlocksWellFormed(u.sections, fmt, limit);
  }

  lemma ChunkMeans(m: BlockMap, u: Update, fmt: Format, limit: int)
    requires u.Chunk? && UpdateOk(u, fmt, limit)
    ensures var o := DecodePacket(MapChunk, UpdateBytes(u, fmt, limit), fmt);
            !o.err && AllOk(o.effects, limit) && MeantAll(m, o.effects) == Meaning(m, u, fmt, limit)
  {
    hide ColumnMap, PlainColumn, StoreColumn, DecodePacket, MeantAll, Carries, PlainOk, HeightmapsOk, ChunkFits,
      UpdateBytes;
    CarriesAll(u.sections, fmt, limit);
    ChunkDecodes(m, u, fmt, limit);
    OneMeant(m, Load(Key(u.x, u.z), BlocksOf(AllWired(u.sections))));
    PackedColumn(u.x, u.z, u.sections);
  }

  /** One packet: no error, in-range effects, and together they are the update's meaning. */
  lemma PacketDecodes(m: BlockMap, u: Update, fmt: Format, limit: int)
    requires UpdateOk(u, fmt, limit)
    ensures var o := DecodePacket(KindOf(u), UpdateBytes(u, fmt, limit), fmt);
            !o.err && AllOk(o.effects, limit) && MeantAll(m, o.effects) == Meaning(m, u, fmt, limit)
  {
    hide ColumnMap, PlainColumn, StoreColumn, DropColumn, SetBlock, VarIntBytes, I32Bytes, I64Bytes, PackBlockPos,
      PackSection, ColumnBytes, ChunkEffects, AfterHeightmaps, ChunkFits, AllWired, BlocksOf, DecodeBlockPos,
      DecodeSection, Packable, SectionPackable, ChangesBytes, MultiEffects, MeantAll, Carries, PlainOk;
    match u
    case Chunk(x, z, _, sections, _) =>
      ChunkMeans(m, u, fmt, limit);
    case Forget(x, z, trailer) =>
      I32ReadAt(z, I32Bytes(x) + trailer);
      I32ReadAt(x, trailer);
      OneMeant(m, Unload(Key(x, z)));
    case OneBlock(pos, state, trailer) =>
      I64ReadAt(PackBlockPos(pos.x, pos.y, pos.z), VarIntBytes(state) + trailer);
      VarIntAt(state, trailer);
      BlockPosRoundTrip(pos);
      OneMeant(m, Set(pos, state));
    case SectionChanges(section, changes, trailer) =>
      var rest := ChangesBytes(changes) + trailer;
      I64ReadAt(PackSection(section.x, section.y, section.z), VarIntBytes(|changes|) + rest);
      VarIntAt(|changes|, rest);
      SectionRoundTrips(section);
      ChangesDecode(m, section, changes, trailer, limit);
    case Respawned(_) => OneMeant(m, Clear);
  }

  lemma CarriesAll(sections: seq<PlainSection>, fmt: Format, limit: int)
    requires forall s | s in sections :: PlainOk(s, fmt, limit)
    ensures forall s | s in sections :: IsGrid(s.blocks) && Carries(s.form, s.States())
  {
  }

  // ------------------------------------------------------------------ what goes wrong

  /** A chunk that declares a size it does not have is dropped, and so is one of more than 64
      sections; neither is an error. */
  lemma ChunkDropped(x: int32, z: int32, h: Heightmaps, size: int32, rest: bytes, fmt: Format)
    requires HeightmapsOk(h, fmt)
    requires size < 0 || size > |rest| || TallBlob(rest[..size], fmt)
    ensures DecodePacket(MapChunk,
            I32Bytes(x) + (I32Bytes(z) + (HeightmapsBytes(h, fmt) + (VarIntBytes(size) + rest))), fmt)
         == Outcome([], false)
  {
    hide ColumnOf, HeightmapsBytes, AfterHeightmaps, VarIntBytes, I32Bytes, TallBlob;
    var s3 := VarIntBytes(size) + rest;
    var s2 := HeightmapsBytes(h, fmt) + s3;
    I32ReadAt(x, I32Bytes(z) + s2);
    I32ReadAt(z, s2);
    HeightmapsAt(h, fmt, s3);
    VarIntAt(size, rest);
    if 0 <= size <= |rest| { TallRefused(rest[..size], fmt); }
  }

  ghost predicate TallBlob(blob: bytes, fmt: Format) {
    exists ws: seq<SectionWire> :: |ws| > 64 && (forall w | w in ws :: SectionExpressible(w, fmt))
      && blob == ColumnBytes(ws, fmt)
  }

  lemma TallRefused(blob: bytes, fmt: Format)
    requires TallBlob(blob, fmt)
    ensures ColumnOf(At(blob), 0, fmt) == None
  {
    var ws: seq<SectionWire> :| |ws| > 64 && (forall w | w in ws :: SectionExpressible(w, fmt))
      && blob == ColumnBytes(ws, fmt);
    TooTall(ws, 0, fmt);
  }

  /** A packet too short for its first fields is an error and changes nothing; a respawn has
      none. So is a chunk whose heightmaps are not a tag. */
  lemma ShortPacket(kind: PacketKind, data: bytes, fmt: Format)
    requires |data| < 8 && !kind.Respawn?
    ensures DecodePacket(kind, data, fmt) == Outcome([], true)
  {
    hide ChunkEffects, MultiEffects, ColumnOf, DecodeBlockPos, DecodeSection, Nbt.TagSpan;
    StaysBroken(fmt);
  }

  lemma StaysBroken(fmt: Format)
    ensures AfterHeightmaps(Broken, fmt) == Broken
  {
    assert Nbt.TagSpan([]) == None;
    assert AfterMaps(Broken, 0) == Broken;
  }

  lemma BadHeightmaps(x: int32, z: int32, rest: bytes, fmt: Format)
    requires fmt.nbtHeightmaps && Nbt.TagSpan(rest) == None
    ensures DecodePacket(MapChunk, I32Bytes(x) + (I32Bytes(z) + rest), fmt) == Outcome([], true)
  {
    hide ChunkEffects, I32Bytes, Nbt.TagSpan;
    I32ReadAt(x, I32Bytes(z) + rest);
    I32ReadAt(z, rest);
  }

  /** A packet of changes that ends before its count does is an error, with the changes that
      were there made all the same. */
  lemma {:induction false} ChangesCutShort(m: BlockMap, section: Pos, changes: seq<Change>, n: nat)
    requires SectionPackable(section) && (forall c | c in changes :: ChangeOk(c)) && n > |changes|
    ensures var o := MultiEffects(At(ChangesBytes(changes)), section, n);
            o.err && MeantAll(m, o.effects) == ChangeAll(m, section, changes)
    decreases |changes|
  {
    hide VarLongBytes, PackChange, DecodeChange, Absolute, GlobalPos, SetBlock, SectionPackable, ChangeOk, MultiEffects,
      EffectMeant, Stream.VarLong, Stream.AfterVarLong;
    MultiIs(At(ChangesBytes(changes)), section, n);
    if changes == [] {
      NothingLeft();
    } else {
      var c := changes[0];
      var rest := ChangesBytes(changes[1..]);
      assert ChangesBytes(changes) == VarLongBytes(PackChange(c)) + rest;
      VarLongAt(PackChange(c), rest);
      ChangeRoundTrip(c);
      AbsoluteIsGlobal(section, c);
      ChangesCutShort(SetBlock(m, GlobalPos(section, c), c.state), section, changes[1..], n - 1);
      ConsEffects(m, Set(GlobalPos(section, c), c.state), MultiEffects(At(rest), section, n - 1).effects);
      OneSet(m, GlobalPos(section, c), c.state);
    }
  }

  lemma MultiIs(s: Stream, section: Pos, n: nat)
    requires n > 0
    ensures var rest := MultiEffects(s.AfterVarLong(), section, n - 1);
            MultiEffects(s, section, n) ==
            if s.AfterVarLong().Err() then Outcome([], true)
            else
              var c := DecodeChange(s.VarLong());
              Outcome([Set(Absolute(section, c), c.state)] + rest.effects, rest.err)
  {
    hide DecodeChange, Absolute, Stream.VarLong, Stream.AfterVarLong;
  }

  lemma NothingLeft()
    ensures At([]).AfterVarLong() == Broken
  {
  }

  lemma OneSet(m: BlockMap, p: Pos, state: int32)
    ensures EffectMeant(m, Set(p, state)) == SetBlock(m, p, state)
  {
  }

  // ------------------------------------------------------------- the world follows the map

  lemma EffectRefines(cs: Columns, e: Effect, limit: int)
    requires Sound(cs, limit) && EffectOk(e, limit)
    ensures Sound(Apply(cs, e), limit) && Blocks(Apply(cs, e)) == EffectMeant(Blocks(cs), e)
  {
    hide WellFormed, PlacedAt, SetBlock, ColumnMap, StoreColumn, DropColumn, Blocks;
    match e
    case Load(key, blocks) =>
      StoreIsStore(cs, key, Column(Floor(|blocks|), blocks));
      WellFormedParsed(blocks, limit);
    case Unload(key) => DropIsDrop(cs, key);
    case Set(pos, state) => SetRefines(cs, pos, state, limit);
    case Clear => NoBlocks();
  }

  lemma NoBlocks()
    ensures Blocks(map[]) == imap[]
  {
  }

  lemma WellFormedParsed(blocks: seq<Packed>, limit: int)
    requires forall b | b in blocks :: WellFormed(b, limit)
    ensures forall b | b in blocks :: Parsed(b)
  {
  }

  lemma {:induction false} EffectsRefine(cs: Columns, es: seq<Effect>, limit: int)
    requires Sound(cs, limit) && AllOk(es, limit)
    ensures Sound(ApplyAll(cs, es), limit) && Blocks(ApplyAll(cs, es)) == MeantAll(Blocks(cs), es)
    decreases |es|
  {
    hide Sound, Apply, EffectOk, EffectMeant, Blocks;
    if es != [] {
      EffectRefines(cs, es[0], limit);
      EffectsRefine(Apply(cs, es[0]), es[1..], limit);
    }
  }

  // ----------------------------------------------------------------------- whole runs

  function RunColumns(cs: Columns, packets: seq<(PacketKind, bytes)>, fmt: Format): Columns
    decreases |packets|
  {
    if packets == [] then cs
    else
      var last := packets[|packets| - 1];
      ApplyAll(RunColumns(cs, packets[..|packets| - 1], fmt), DecodePacket(last.0, last.1, fmt).effects)
  }

  /** Whatever packets arrive, malformed or not, every column is one the parser makes, so
      that every coordinate reads as the map of the columns says, and `SetIff` says of every
      update whether it is exact. */
  lemma {:induction false} RunFair(cs: Columns, packets: seq<(PacketKind, bytes)>, fmt: Format)
    requires AllFair(cs)
    ensures AllFair(RunColumns(cs, packets, fmt))
    ensures var after := RunColumns(cs, packets, fmt); forall p: Pos :: ReadAt(after, p) == ReadBlock(Blocks(after), p)
    decreases |packets|
  {
    hide DecodePacket, EffectFair, Fair, ApplyAll, ReadAt, ReadBlock, Blocks;
    if packets != [] {
      var n := |packets| - 1;
      RunFair(cs, packets[..n], fmt);
      PacketFair(packets[n].0, packets[n].1, fmt);
      EffectsFair(RunColumns(cs, packets[..n], fmt), DecodePacket(packets[n].0, packets[n].1, fmt).effects);
    }
    var after := RunColumns(cs, packets, fmt);
    forall p: Pos ensures ReadAt(after, p) == ReadBlock(Blocks(after), p) {
      ReadIsMap(after, p);
    }
  }

  /** The packets are a server's encoding of the updates. */
  ghost predicate Encodes(us: seq<Update>, packets: seq<(PacketKind, bytes)>, fmt: Format, limit: int) {
    && RunOk(us, fmt, limit) && |packets| == |us|
    && forall k | 0 <= k < |us| :: packets[k] == (KindOf(us[k]), UpdateBytes(us[k], fmt, limit))
  }

  /** World refinement: packets a server encodes read without an error, and leave the world
      the plain map of the run, at every coordinate. */
  lemma {:induction false} RunRefines(
    cs: Columns, us: seq<Update>, packets: seq<(PacketKind, bytes)>, fmt: Format, limit: int)
    requires Sound(cs, limit) && Encodes(us, packets, fmt, limit)
    ensures Sound(RunColumns(cs, packets, fmt), limit)
    ensures Blocks(RunColumns(cs, packets, fmt)) == RunMeaning(Blocks(cs), us, fmt, limit)
    ensures forall k | 0 <= k < |packets| :: !DecodePacket(packets[k].0, packets[k].1, fmt).err
    decreases |us|
  {
    hide DecodePacket, Sound, Blocks, Meaning, UpdateOk, UpdateBytes, ApplyAll, MeantAll, EffectOk;
    if us != [] {
      var n := |us| - 1;
      RunRefines(cs, us[..n], packets[..n], fmt, limit);
      var cs' := RunColumns(cs, packets[..n], fmt);
      PacketDecodes(Blocks(cs'), us[n], fmt, limit);
      EffectsRefine(cs', DecodePacket(packets[n].0, packets[n].1, fmt).effects, limit);
      forall k | 0 <= k < |packets| ensures !DecodePacket(packets[k].0, packets[k].1, fmt).err {
        if k < n { assert packets[..n][k] == packets[k]; }
      }
    }
  }

  /** The handlers, over any packets at all: the world holds what they decode to. */
  method Replay(w: World, packets: seq<(PacketKind, bytes)>, fmt: Format) returns (failed: bool)
    requires w.Valid()
    modifies w.Repr
    ensures w.Valid() && w.columns == RunColumns(old(w.columns), packets, fmt)
    ensures failed == exists k | 0 <= k < |packets| :: DecodePacket(packets[k].0, packets[k].1, fmt).err
    ensures forall us, limit | Sound(old(w.columns), limit) && Encodes(us, packets, fmt, limit) ::
              var m := RunMeaning(Blocks(old(w.columns)), us, fmt, limit);
              !failed && Blocks(w.columns) == m && forall p: Pos :: w.BlockState(p.x, p.y, p.z) == ReadBlock(m, p)
  {
    hide DecodePacket, ApplyAll, Sound, Blocks, RunMeaning, UpdateOk, UpdateBytes, ReadAt, ReadBlock, World.Valid;
    failed := false;
    for i := 0 to |packets|
      invariant w.Valid() && fresh(w.Repr - old(w.Repr))
      invariant w.columns == RunColumns(old(w.columns), packets[..i], fmt)
      invariant failed == exists k | 0 <= k < i :: DecodePacket(packets[k].0, packets[k].1, fmt).err
    {
      assert packets[..i + 1][..i] == packets[..i];
      var err := HandleWorldPacket(w, packets[i].0, packets[i].1, fmt);
      failed := failed || err;
    }
    assert packets[..|packets|] == packets;
    forall us, limit | Sound(old(w.columns), limit) && Encodes(us, packets, fmt, limit)
      ensures var m := RunMeaning(Blocks(old(w.columns)), us, fmt, limit);
              !failed && Blocks(w.columns) == m && forall p: Pos :: w.BlockState(p.x, p.y, p.z) == ReadBlock(m, p)
    {
      RunRefines(old(w.columns), us, packets, fmt, limit);
      SoundReads(w.columns, limit);
    }
  }

  lemma SoundReads(cs: Columns, limit: int)
    requires Sound(cs, limit)
    ensures forall p: Pos :: ReadAt(cs, p) == ReadBlock(Blocks(cs), p)
  {
    hide ReadAt, ReadBlock, Blocks, WellFormed;
    forall p: Pos ensures ReadAt(cs, p) == ReadBlock(Blocks(cs), p) { ReadIsMap(cs, p); }
  }
}
