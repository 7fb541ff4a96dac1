/** The terrain packets (`understudy/world.go`) and the packed coordinates they carry
(`protocol/writer.go`), from bytes to the world. */
module WorldPackets {
  import opened Words
  import opened Wire
  import opened Sections
  import opened ChunkParse
  import opened Terrain
  import Nbt

  // -------------------------------------------------------------- packed coordinates

  const P12 := 0x1000
  const P20 := 0x10_0000
  const P22 := 0x40_0000
  const P26 := 0x400_0000
  const P38 := 0x40_0000_0000
  const P42 := 0x400_0000_0000
  const P44 := 0x1000_0000_0000
  const P52 := 0x10_0000_0000_0000

  /** `Writer.BlockPos`: x:26, z:26, y:12 in one word. */
  function PackBlockPos(x: int32, y: int32, z: int32): int64 {
    ToI64(x % P26 * P38 + z % P26 * P12 + y % P12)
  }

  /** Each part is moved to the top of the word and shifted back down with its sign. */
  function DecodeBlockPos(v: int64): Pos {
    Pos(ToI32(v / P38), ToI32(ToI64(v * P52) / P52), ToI32(ToI64(v * P26) / P38))
  }

  predicate Packable(p: Pos) {
    -0x200_0000 <= p.x < 0x200_0000 && -0x200_0000 <= p.z < 0x200_0000 && -0x800 <= p.y < 0x800
  }

  /** An n-valued field read as two's complement. */
  function Signed(u: int, n: int): int { if u < n / 2 then u else u - n }

  lemma SignedMod(x: int, n: int)
    requires n > 0 && n % 2 == 0 && -n / 2 <= x < n / 2
    ensures Signed(x % n, n) == x
  {
    if x < 0 { DivUnique(x, n, -1, x + n); } else { DivUnique(x, n, 0, x); }
  }

  lemma Wrapped(u: int, k: int)
    requires 0 <= u < WORD64
    ensures ToI64(u + k * WORD64) == Signed(u, WORD64)
  {
    DivUnique(u + k * WORD64, WORD64, k, u);
  }

  lemma BlockPosRoundTrip(p: Pos)
    requires Packable(p)
    ensures DecodeBlockPos(PackBlockPos(p.x, p.y, p.z)) == p
  {
    hide ToI32, ToI64, Signed;
    ToI32Id(p.x);
    ToI32Id(p.y);
    ToI32Id(p.z);
    SignedMod(p.x, P26);
    SignedMod(p.z, P26);
    SignedMod(p.y, P12);
    BlockPosFields(p.x % P26, p.z % P26, p.y % P12);
  }

  lemma BlockPosFields(x: int, z: int, y: int)
    requires 0 <= x < P26 && 0 <= z < P26 && 0 <= y < P12
    ensures var v := ToI64(x * P38 + z * P12 + y);
            && v / P38 == Signed(x, P26) && ToI64(v * P52) / P52 == Signed(y, P12)
            && ToI64(v * P26) / P38 == Signed(z, P26)
  {
    var u := x * P38 + z * P12 + y;
    Wrapped(u, 0);
    var v := ToI64(u);
    var t := if u < WORD64 / 2 then 0 else -1;
    DivUnique(v, P38, Signed(x, P26), z * P12 + y);
    assert v * P52 == y * P52 + (x * P26 + z + t * P52) * WORD64;
    Wrapped(y * P52, x * P26 + z + t * P52);
    DivUnique(Signed(y * P52, WORD64), P52, Signed(y, P12), 0);
    assert v * P26 == (z * P12 + y) * P26 + (x + t * P26) * WORD64;
    Wrapped((z * P12 + y) * P26, x + t * P26);
    DivUnique(Signed((z * P12 + y) * P26, WORD64), P38, Signed(z, P26), y * P26);
  }

  /** Where the three coordinates are in the word: 26 bits of x at the top, 26 of z below
      them, 12 of y at the bottom. */
  lemma BlockPosBits(x: int32, y: int32, z: int32)
    ensures var u := PackBlockPos(x, y, z) % 0x1_0000_0000_0000_0000;
            u / 0x40_0000_0000 == x % 0x400_0000 && u / 0x1000 % 0x400_0000 == z % 0x400_0000
              && u % 0x1000 == y % 0x1000
  {
    var a, b, c := x % 0x400_0000, z % 0x400_0000, y % 0x1000;
    var w := a * 0x40_0000_0000 + b * 0x1000 + c;
    UnsignedWord(w);
    DivUnique(w, 0x40_0000_0000, a, b * 0x1000 + c);
    DivUnique(w, 0x1000, a * 0x400_0000 + b, c);
    DivUnique(a * 0x400_0000 + b, 0x400_0000, a, b);
  }

  lemma UnsignedWord(w: int)
    requires 0 <= w < WORD64
    ensures ToI64(w) % WORD64 == w
  {
  }

  /** A section's coordinates, x:22, z:22, y:20. */
  function PackSection(x: int32, y: int32, z: int32): int64 {
    ToI64(x % P22 * P42 + z % P22 * P20 + y % P20)
  }

  function DecodeSection(v: int64): Pos {
    Pos(ToI32(v / P42), ToI32(ToI64(v * P44) / P44), ToI32(ToI64(v * P22) / P42))
  }

  predicate SectionPackable(p: Pos) {
    -0x20_0000 <= p.x < 0x20_0000 && -0x20_0000 <= p.z < 0x20_0000 && -0x8_0000 <= p.y < 0x8_0000
  }

  lemma SectionRoundTrips(p: Pos)
    requires SectionPackable(p)
    ensures DecodeSection(PackSection(p.x, p.y, p.z)) == p
  {
    hide ToI32, ToI64, Signed;
    ToI32Id(p.x);
    ToI32Id(p.y);
    ToI32Id(p.z);
    SignedMod(p.x, P22);
    SignedMod(p.z, P22);
    SignedMod(p.y, P20);
    SectionFields(p.x % P22, p.z % P22, p.y % P20);
  }

  lemma SectionFields(x: int, z: int, y: int)
    requires 0 <= x < P22 && 0 <= z < P22 && 0 <= y < P20
    ensures var v := ToI64(x * P42 + z * P20 + y);
            && v / P42 == Signed(x, P22) && ToI64(v * P44) / P44 == Signed(y, P20)
            && ToI64(v * P22) / P42 == Signed(z, P22)
  {
    var u := x * P42 + z * P20 + y;
    Wrapped(u, 0);
    var v := ToI64(u);
    var t := if u < WORD64 / 2 then 0 else -1;
    DivUnique(v, P42, Signed(x, P22), z * P20 + y);
    assert v * P44 == y * P44 + (x * P22 + z + t * P44) * WORD64;
    Wrapped(y * P44, x * P22 + z + t * P44);
    DivUnique(Signed(y * P44, WORD64), P44, Signed(y, P20), 0);
    assert v * P22 == (z * P20 + y) * P22 + (x + t * P22) * WORD64;
    Wrapped((z * P20 + y) * P22, x + t * P22);
    DivUnique(Signed((z * P20 + y) * P22, WORD64), P42, Signed(z, P22), y * P22);
  }

  /** 22 bits of x, 22 of z and 20 of y, from the top. */
  lemma SectionBits(x: int32, y: int32, z: int32)
    ensures var u := PackSection(x, y, z) % 0x1_0000_0000_0000_0000;
            u / 0x400_0000_0000 == x % 0x40_0000 && u / 0x10_0000 % 0x40_0000 == z % 0x40_0000
              && u % 0x10_0000 == y % 0x10_0000
  {
    var a, b, c := x % 0x40_0000, z % 0x40_0000, y % 0x10_0000;
    var w := a * 0x400_0000_0000 + b * 0x10_0000 + c;
    UnsignedWord(w);
    DivUnique(w, 0x400_0000_0000, a, b * 0x10_0000 + c);
    DivUnique(w, 0x10_0000, a * 0x40_0000 + b, c);
    DivUnique(a * 0x40_0000 + b, 0x40_0000, a, b);
  }

  /** One change within a section: a state and three local nibbles. */
  datatype Change = Change(dx: int, dy: int, dz: int, state: int32)

  predicate ChangeOk(c: Change) {
    0 <= c.dx < 16 && 0 <= c.dy < 16 && 0 <= c.dz < 16 && 0 <= c.state
  }

  function PackChange(c: Change): int64
    requires ChangeOk(c)
  {
    c.state * 4096 + c.dx * 256 + c.dz * 16 + c.dy
  }

  /** Above twelve bits the state; in them x, then z, then y. */
  lemma ChangeBits(c: Change)
    requires ChangeOk(c)
    ensures var v := PackChange(c); v / 4096 == c.state && v / 256 % 16 == c.dx && v / 16 % 16 == c.dz && v % 16 == c.dy
  {
    var v := PackChange(c);
    DivUnique(v, 4096, c.state, c.dx * 256 + c.dz * 16 + c.dy);
    DivUnique(v, 256, c.state * 16 + c.dx, c.dz * 16 + c.dy);
    DivUnique(c.state * 16 + c.dx, 16, c.state, c.dx);
    DivUnique(v, 16, c.state * 256 + c.dx * 16 + c.dz, c.dy);
    DivUnique(c.state * 256 + c.dx * 16 + c.dz, 16, c.state * 16 + c.dx, c.dz);
  }

  function DecodeChange(record: int64): Change {
    var local := record % 4096;
    Change(local / 256 % 16, local % 16, local / 16 % 16, ToI32(record / 4096))
  }

  lemma ChangeRoundTrip(c: Change)
    requires ChangeOk(c)
    ensures DecodeChange(PackChange(c)) == c
  {
    var local := c.dx * 256 + c.dz * 16 + c.dy;
    DivUnique(PackChange(c), 4096, c.state, local);
    DivUnique(local, 256, c.dx, c.dz * 16 + c.dy);
    DivUnique(local, 16, c.dx * 16 + c.dz, c.dy);
    DivUnique(c.dx * 16 + c.dz, 16, c.dx, c.dz);
    ToI32Id(c.state);
  }

  function Absolute(section: Pos, c: Change): Pos {
    Pos(ToI32(section.x * 16 + c.dx), ToI32(section.y * 16 + c.dy), ToI32(section.z * 16 + c.dz))
  }

  // ----------------------------------------------------- what a packet does to the world

  datatype Effect =
    | Load(key: Key, blocks: seq<Packed>)
    | Unload(key: Key)
    | Set(pos: Pos, state: int32)
    | Clear

  function Apply(cs: Columns, e: Effect): Columns {
    match e
    case Load(key, blocks) => cs[key := Column(Floor(|blocks|), blocks)]
    case Unload(key) => cs - {key}
    case Set(pos, state) => PlacedAt(cs, pos, state)
    case Clear => map[]
  }

  function ApplyAll(cs: Columns, es: seq<Effect>): Columns
    decreases |es|
  {
    if es == [] then cs else ApplyAll(Apply(cs, es[0]), es[1..])
  }

  lemma OneEffect(cs: Columns, e: Effect)
    ensures ApplyAll(cs, [e]) == Apply(cs, e)
  {
    assert ApplyAll(Apply(cs, e), []) == Apply(cs, e);
  }

  lemma NoEffect(cs: Columns)
    ensures ApplyAll(cs, []) == cs
  {
  }

  datatype PacketKind = MapChunk | UnloadChunk | BlockChange | MultiBlockChange | Respawn

  /** The effects a packet has before it ends or an error stops it, and whether one did. */
  datatype Outcome = Outcome(effects: seq<Effect>, err: bool)

  function I32At(s: Stream): int32 { ToI32(s.Peek(4)) }

  /** The array form of heightmaps: a type and a counted run of longs each. */
  function AfterMaps(s: Stream, n: nat): Stream
    decreases n
  {
    if n == 0 then s
    else
      var s' := s.AfterVarInt();
      AfterMaps(AfterLongs(s'.AfterVarInt(), Rounds(s'.VarInt())), n - 1)
  }

  function AfterHeightmaps(s: Stream, fmt: Format): Stream {
    if fmt.nbtHeightmaps then
      match Nbt.TagSpan(s.Remaining()) case None => Broken case Some(n) => s.Skip(n)
    else AfterMaps(s.AfterVarInt(), Rounds(s.VarInt()))
  }

  function ChunkEffects(x: int32, z: int32, s: Stream, fmt: Format): Outcome {
    var rest := s.AfterVarInt();
    if rest.Err() then Outcome([], true)
    else if s.VarInt() < 0 || s.VarInt() > |rest.rest| then Outcome([], false)
    else match ColumnOf(At(rest.rest[..s.VarInt()]), 0, fmt)
      case None => Outcome([], false)
      case Some(blocks) => Outcome([Load(Key(x, z), blocks)], false)
  }

  function MultiEffects(s: Stream, section: Pos, n: nat): Outcome
    decreases n
  {
    if n == 0 then Outcome([], false)
    else if s.AfterVarLong().Err() then Outcome([], true)
    else
      var c := DecodeChange(s.VarLong());
      var rest := MultiEffects(s.AfterVarLong(), section, n - 1);
      Outcome([Set(Absolute(section, c), c.state)] + rest.effects, rest.err)
  }

  function DecodePacket(kind: PacketKind, data: bytes, fmt: Format): Outcome {
    var s := At(data);
    match kind
    case Respawn => Outcome([Clear], false)
    case UnloadChunk =>
      if s.Skip(4).Skip(4).Err() then Outcome([], true)
      else Outcome([Unload(Key(I32At(s.Skip(4)), I32At(s)))], false)
    case BlockChange =>
      var s' := s.Skip(8);
      if s'.AfterVarInt().Err() then Outcome([], true)
      else Outcome([Set(DecodeBlockPos(ToI64(s.Peek(8))), s'.VarInt())], false)
    case MultiBlockChange =>
      var s' := s.Skip(8);
      if s'.AfterVarInt().Err() then Outcome([], true)
      else MultiEffects(s'.AfterVarInt(), DecodeSection(ToI64(s.Peek(8))), Rounds(s'.VarInt()))
    case MapChunk =>
      var s' := AfterHeightmaps(s.Skip(4).Skip(4), fmt);
      if s'.Err() then Outcome([], true) else ChunkEffects(I32At(s), I32At(s.Skip(4)), s', fmt)
  }

  // ------------------------------------------------------------- handling it, in place

  method SkipLongs(r: Reader, m: nat)
    modifies r
    ensures r.State() == AfterLongs(old(r.State()), m)
  {
    ghost var s := r.State();
    for j := 0 to m
      invariant AfterLongs(r.State(), m - j) == AfterLongs(s, m)
    {
      r.Skip(8);
    }
  }

  method SkipMaps(r: Reader)
    modifies r
    ensures r.State() == AfterMaps(old(r.State()).AfterVarInt(), Rounds(old(r.State()).VarInt()))
  {
    hide AfterLongs;
    var n := r.VarInt();
    ghost var s := r.State();
    for i := 0 to Rounds(n)
      invariant AfterMaps(r.State(), Rounds(n) - i) == AfterMaps(s, Rounds(n))
    {
      var _ := r.VarInt();
      var m := r.VarInt();
      SkipLongs(r, Rounds(m));
    }
  }

  method SkipHeightmaps(r: Reader, fmt: Format) returns (err: bool)
    modifies r
    ensures err == AfterHeightmaps(old(r.State()), fmt).Err()
    ensures !err ==> r.State() == AfterHeightmaps(old(r.State()), fmt)
  {
    if fmt.nbtHeightmaps {
      var n, _ := Nbt.SkipTag(r.State().Remaining());
      if n == None { return true; }
      r.Skip(n.value);
    } else {
      SkipMaps(r);
    }
    return r.failed;
  }

  /** Decoding a map_chunk packet: its column, or nothing when the chunk is dropped. */
  method ReadMapChunk(data: bytes, fmt: Format) returns (x: int32, z: int32, sections: Option<seq<Packed>>, err: bool)
    ensures DecodePacket(MapChunk, data, fmt)
         == Outcome(if sections.Some? then [Load(Key(x, z), sections.value)] else [], err)
  {
    hide ColumnOf, AfterHeightmaps;
    var r := new Reader(data);
    var ux := r.Unsigned(4);
    var uz := r.Unsigned(4);
    x, z, sections := ToI32(ux), ToI32(uz), None;
    err := SkipHeightmaps(r, fmt);
    if err { return; }
    var size := r.VarInt();
    if r.failed { return x, z, None, true; }
    if size < 0 || size > |r.tail| { return x, z, None, false; }
    sections := ReadSections(r.tail[..size], fmt);
  }

  method HandleMapChunk(w: World, data: bytes, fmt: Format) returns (err: bool)
    requires w.Valid()
    modifies w.Repr
    ensures w.Valid() && fresh(w.Repr - old(w.Repr))
    ensures err == DecodePacket(MapChunk, data, fmt).err
    ensures w.columns == ApplyAll(old(w.columns), DecodePacket(MapChunk, data, fmt).effects)
  {
    hide DecodePacket, ApplyAll;
    var x, z, sections, failed := ReadMapChunk(data, fmt);
    err := failed;
    NoEffect(w.columns);
    if sections == None { return; }
    OneEffect(w.columns, Load(Key(x, z), sections.value));
    var c := new ChunkColumn(x, z, sections.value);
    w.Store(c);
  }

  method HandleUnload(w: World, data: bytes, fmt: Format) returns (err: bool)
    requires w.Valid()
    modifies w.Repr
    ensures w.Valid() && fresh(w.Repr - old(w.Repr))
    ensures err == DecodePacket(UnloadChunk, data, fmt).err
    ensures w.columns == ApplyAll(old(w.columns), DecodePacket(UnloadChunk, data, fmt).effects)
  {
    hide ApplyAll, Stream.Skip, Stream.Peek, ToI32;
    var r := new Reader(data);
    var uz := r.Unsigned(4);
    var ux := r.Unsigned(4);
    OneEffect(w.columns, Unload(Key(ToI32(ux), ToI32(uz))));
    NoEffect(w.columns);
    if r.failed { return true; }
    w.Drop(ToI32(ux), ToI32(uz));
    err := false;
  }

  method HandleBlockChange(w: World, data: bytes, fmt: Format) returns (err: bool)
    requires w.Valid()
    modifies w.Repr
    ensures w.Valid() && fresh(w.Repr - old(w.Repr))
    ensures err == DecodePacket(BlockChange, data, fmt).err
    ensures w.columns == ApplyAll(old(w.columns), DecodePacket(BlockChange, data, fmt).effects)
  {
    hide ApplyAll, PlacedAt, DecodeBlockPos, Stream.Skip, Stream.Peek, Stream.VarInt, Stream.AfterVarInt, ToI64;
    var r := new Reader(data);
    var packed := r.I64();
    var state := r.VarInt();
    var p := DecodeBlockPos(packed);
    OneEffect(w.columns, Set(p, state));
    NoEffect(w.columns);
    if r.failed { return true; }
    w.SetBlockState(p.x, p.y, p.z, state);
    err := false;
  }

  method HandleMultiBlockChange(w: World, data: bytes, fmt: Format) returns (err: bool)
    requires w.Valid()
    modifies w.Repr
    ensures w.Valid() && fresh(w.Repr - old(w.Repr))
    ensures err == DecodePacket(MultiBlockChange, data, fmt).err
    ensures w.columns == ApplyAll(old(w.columns), DecodePacket(MultiBlockChange, data, fmt).effects)
  {
    hide MultiEffects, ApplyAll, DecodeSection, Stream.Skip, Stream.Peek, Stream.VarInt, Stream.AfterVarInt, ToI64;
    NoEffect(w.columns);
    var r := new Reader(data);
    var packed := r.I64();
    var n := r.VarInt();
    if r.failed { return true; }
    err := ApplyChanges(w, r, DecodeSection(packed), Rounds(n));
  }

  /** The loop over a packet's records, up to one that does not read. */
  method ApplyChanges(w: World, r: Reader, section: Pos, n: nat) returns (err: bool)
    requires w.Valid() && r !in w.Repr
    modifies w.Repr, r
    ensures w.Valid() && fresh(w.Repr - old(w.Repr))
    ensures err == MultiEffects(old(r.State()), section, n).err
    ensures w.columns == ApplyAll(old(w.columns), MultiEffects(old(r.State()), section, n).effects)
  {
    hide MultiEffects, ApplyAll, PlacedAt, DecodeChange, Absolute, Stream.VarLong, Stream.AfterVarLong, World.Valid;
    ghost var all := MultiEffects(r.State(), section, n);
    ghost var goal := ApplyAll(w.columns, all.effects);
    for i := 0 to n
      invariant r !in w.Repr && w.Valid() && fresh(w.Repr - old(w.Repr))
      invariant all.err == MultiEffects(r.State(), section, n - i).err
      invariant goal == ApplyAll(w.columns, MultiEffects(r.State(), section, n - i).effects)
    {
      MultiStep(r.State(), section, n - i);
      NoEffect(w.columns);
      var record := r.VarLong();
      if r.failed { return true; }
      var c := DecodeChange(record);
      var p := Absolute(section, c);
      w.SetBlockState(p.x, p.y, p.z, c.state);
    }
    MultiDone(r.State(), section);
    NoEffect(w.columns);
    return false;
  }

  lemma MultiDone(s: Stream, section: Pos)
    ensures MultiEffects(s, section, 0) == Outcome([], false)
  {
  }

  lemma MultiStep(s: Stream, section: Pos, n: nat)
    requires n > 0
    ensures var all := MultiEffects(s, section, n);
            var c := DecodeChange(s.VarLong());
            var rest := MultiEffects(s.AfterVarLong(), section, n - 1);
            if s.AfterVarLong().Err() then all == Outcome([], true)
            else
              && all.err == rest.err
              && forall cs ::
                   ApplyAll(cs, all.effects) == ApplyAll(PlacedAt(cs, Absolute(section, c), c.state), rest.effects)
  {
    hide DecodeChange, Absolute, PlacedAt;
    if !s.AfterVarLong().Err() {
      var c := DecodeChange(s.VarLong());
      var rest := MultiEffects(s.AfterVarLong(), section, n - 1);
      var all := MultiEffects(s, section, n).effects;
      assert all[0] == Set(Absolute(section, c), c.state) && all[1..] == rest.effects;
    }
  }

  method HandleWorldPacket(w: World, kind: PacketKind, data: bytes, fmt: Format) returns (err: bool)
    requires w.Valid()
    modifies w.Repr
    ensures w.Valid() && fresh(w.Repr - old(w.Repr))
    ensures err == DecodePacket(kind, data, fmt).err
    ensures w.columns == ApplyAll(old(w.columns), DecodePacket(kind, data, fmt).effects)
  {
    hide ApplyAll, ChunkEffects, MultiEffects, DecodeBlockPos;
    match kind
    case MapChunk => err := HandleMapChunk(w, data, fmt);
    case MultiBlockChange => err := HandleMultiBlockChange(w, data, fmt);
    case Respawn =>
      OneEffect(w.columns, Clear);
      w.Reset();
      return false;
    case UnloadChunk => err := HandleUnload(w, data, fmt);
    case BlockChange => err := HandleBlockChange(w, data, fmt);
  }

  // --------------------------------------------------------- whatever packets arrive

  predicate EffectFair(e: Effect) {
    e.Load? ==> Fair(Column(Floor(|e.blocks|), e.blocks))
  }

  lemma {:induction false} MultiFair(s: Stream, section: Pos, n: nat)
    ensures forall e | e in MultiEffects(s, section, n).effects :: e.Set?
    decreases n
  {
    if n > 0 { MultiFair(s.AfterVarLong(), section, n - 1); }
  }

  lemma ChunkFair(x: int32, z: int32, s: Stream, fmt: Format)
    ensures forall e | e in ChunkEffects(x, z, s, fmt).effects :: EffectFair(e)
  {
    hide ColumnOf;
    var rest := s.AfterVarInt();
    if !rest.Err() && 0 <= s.VarInt() <= |rest.rest| {
      ColumnParsed(At(rest.rest[..s.VarInt()]), 0, fmt);
    }
  }

  /** Malformed or not, a packet loads only columns as the parser makes them. */
  lemma PacketFair(kind: PacketKind, data: bytes, fmt: Format)
    ensures forall e | e in DecodePacket(kind, data, fmt).effects :: EffectFair(e)
  {
    hide AfterHeightmaps, MultiEffects, ChunkEffects, Fair;
    var s := At(data);
    MultiFair(s.Skip(8).AfterVarInt(), DecodeSection(ToI64(s.Peek(8))), Rounds(s.Skip(8).VarInt()));
    ChunkFair(I32At(s), I32At(s.Skip(4)), AfterHeightmaps(s.Skip(4).Skip(4), fmt), fmt);
  }

  lemma {:induction false} EffectsFair(cs: Columns, es: seq<Effect>)
    requires AllFair(cs) && forall e | e in es :: EffectFair(e)
    ensures AllFair(ApplyAll(cs, es))
    decreases |es|
  {
    hide PlacedAt, Fair;
    if es != [] {
      if es[0].Set? { PlacedFair(cs, es[0].pos, es[0].state); }
      assert EffectFair(es[0]);
      EffectsFair(Apply(cs, es[0]), es[1..]);
    }
  }
}
