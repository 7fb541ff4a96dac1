/** Decoding the chunk data of a map_chunk packet (`protocol/chunk.go`). */
module ChunkParse {
  import opened Words
  import opened Wire
  import opened Sections

  const MAX_SECTIONS := 64
  const OVERWORLD_SECTIONS := 16
  const OVERWORLD_MIN_Y: int32 := -64
  const NETHER_MIN_Y: int32 := 0
  const BIOMES := 64
  const BLOCK_PALETTE_BITS := 8
  const BIOME_PALETTE_BITS := 3
  const MAX_PALETTE := 65536
  const MAX_LONGS := 4096

  /** The parts of the chunk encoding that changed between versions. */
  datatype Format = Format(hasFluidCount: bool, hasSizePrefix: bool, nbtHeightmaps: bool)

  // ------------------------------------------------------------- runs of equal fields

  function VarIntsOf(s: Stream, n: nat): (vs: seq<int32>)
    ensures |vs| == n
    decreases n
  {
    if n == 0 then [] else [s.VarInt()] + VarIntsOf(s.AfterVarInt(), n - 1)
  }

  function LongsOf(s: Stream, n: nat): (vs: seq<int64>)
    ensures |vs| == n
    decreases n
  {
    if n == 0 then [] else [ToI64(s.Peek(8))] + LongsOf(s.Skip(8), n - 1)
  }

  function AfterLongs(s: Stream, n: nat): Stream
    decreases n
  {
    if n == 0 then s else AfterLongs(s.Skip(8), n - 1)
  }

  function LongsBytes(vs: seq<int64>): bytes {
    if vs == [] then [] else I64Bytes(vs[0]) + LongsBytes(vs[1..])
  }

  lemma {:induction false} VarIntsAt(vs: seq<int32>, suffix: bytes)
    ensures VarIntsOf(At(VarIntsBytes(vs) + suffix), |vs|) == vs
    ensures AfterVarInts(At(VarIntsBytes(vs) + suffix), |vs|) == At(suffix)
  {
    if vs == [] {
      assert VarIntsBytes(vs) + suffix == suffix;
    } else {
      assert VarIntsBytes(vs) + suffix == VarIntBytes(vs[0]) + (VarIntsBytes(vs[1..]) + suffix);
      VarIntAt(vs[0], VarIntsBytes(vs[1..]) + suffix);
      VarIntsAt(vs[1..], suffix);
    }
  }

  lemma {:induction false} LongsAt(vs: seq<int64>, suffix: bytes)
    ensures LongsOf(At(LongsBytes(vs) + suffix), |vs|) == vs
    ensures AfterLongs(At(LongsBytes(vs) + suffix), |vs|) == At(suffix)
  {
    if vs == [] {
      assert LongsBytes(vs) + suffix == suffix;
    } else {
      assert LongsBytes(vs) + suffix == I64Bytes(vs[0]) + (LongsBytes(vs[1..]) + suffix);
      SkipAt(I64Bytes(vs[0]), LongsBytes(vs[1..]) + suffix);
      I64RoundTrip(vs[0]);
      LongsAt(vs[1..], suffix);
    }
  }

  // ------------------------------------------------------------- paletted containers

  datatype Result<+T> = Fail | Ok(value: T, after: Stream)

  /** The palette of an indirect container; the other encodings carry none. */
  function PaletteOf(s: Stream, indirect: bool): Result<seq<int32>>
  {
    if !indirect then
      if s.Err() then Fail else Ok([], s)
    else if !(0 <= s.VarInt() <= MAX_PALETTE) then
      Fail
    else
      var s' := AfterVarInts(s.AfterVarInt(), s.VarInt());
      if s'.Err() then Fail else Ok(VarIntsOf(s.AfterVarInt(), s.VarInt()), s')
  }

  /** The packed longs: counted by a prefix before 1.21.5, computed since. */
  function DataOf(s: Stream, bits: nat, capacity: nat, fmt: Format): Result<seq<int64>>
    requires 1 <= bits <= 64
  {
    var n := if fmt.hasSizePrefix then s.VarInt() else LongsFor(bits, capacity);
    var s' := if fmt.hasSizePrefix then s.AfterVarInt() else s;
    if s'.Err() || (fmt.hasSizePrefix && !(0 <= n <= MAX_LONGS)) then Fail
    else if AfterLongs(s', n).Err() then Fail
    else Ok(LongsOf(s', n), AfterLongs(s', n))
  }

  /** What one paletted container decodes to. */
  function ContainerOf(s: Stream, maxIndirect: nat, capacity: nat, fmt: Format): Result<Packed>
  {
    var bits := s.Peek(1);
    var s1 := s.Skip(1);
    if s1.Err() || bits > MAX_BITS_PER_ENTRY then Fail
    else if bits == 0 then
      var s2 := s1.AfterVarInt();
      var s3 := if fmt.hasSizePrefix then s2.Skip(1) else s2;
      if s3.Err() then Fail else Ok(Packed(0, [], s1.VarInt(), []), s3)
    else
      match PaletteOf(s1, bits <= maxIndirect)
      case Fail => Fail
      case Ok(palette, s2) =>
        match DataOf(s2, bits, capacity, fmt)
        case Fail => Fail
        case Ok(longs, s3) => Ok(Packed(bits, palette, AIR, longs), s3)
  }

  function PaletteBytes(palette: seq<int32>, indirect: bool): bytes
    requires |palette| <= 65536
  {
    if indirect then VarIntBytes(|palette|) + VarIntsBytes(palette) else []
  }

  function DataBytes(longs: seq<int64>, fmt: Format): bytes
    requires |longs| <= 4096
  {
    (if fmt.hasSizePrefix then VarIntBytes(|longs|) else []) + LongsBytes(longs)
  }

  /** A container as the format writes it. */
  function ContainerBytes(p: Packed, maxIndirect: nat, fmt: Format): bytes
    requires p.bits < 256 && |p.palette| <= 65536 && |p.longs| <= 4096
  {
    [p.bits] +
    if p.bits == 0 then
      VarIntBytes(p.single) + if fmt.hasSizePrefix then [0] else []
    else
      PaletteBytes(p.palette, p.bits <= maxIndirect) + DataBytes(p.longs, fmt)
  }

  /** The containers the format can express: its limits written out. */
  predicate Expressible(p: Packed, maxIndirect: nat, capacity: nat, fmt: Format)
  {
    && p.bits <= 32 && |p.palette| <= 65536 && |p.longs| <= 4096
    && (p.bits == 0 || p.bits > maxIndirect ==> p.palette == [])
    && (if p.bits == 0 then p.longs == [] else p.single == AIR)
    && (p.bits > 0 && !fmt.hasSizePrefix ==> |p.longs| == (capacity + 64 / p.bits - 1) / (64 / p.bits))
  }

  lemma PaletteRoundTrip(palette: seq<int32>, indirect: bool, suffix: bytes)
    requires |palette| <= MAX_PALETTE && (!indirect ==> palette == [])
    ensures PaletteOf(At(PaletteBytes(palette, indirect) + suffix), indirect) == Ok(palette, At(suffix))
  {
    if indirect {
      var rest := VarIntsBytes(palette) + suffix;
      assert PaletteBytes(palette, indirect) + suffix == VarIntBytes(|palette|) + rest;
      VarIntAt(|palette|, rest);
      VarIntsAt(palette, suffix);
    } else {
      assert PaletteBytes(palette, indirect) + suffix == suffix;
    }
  }

  lemma DataRoundTrip(longs: seq<int64>, bits: nat, capacity: nat, fmt: Format, suffix: bytes)
    requires 1 <= bits <= 64 && |longs| <= MAX_LONGS
    requires !fmt.hasSizePrefix ==> |longs| == LongsFor(bits, capacity)
    ensures DataOf(At(DataBytes(longs, fmt) + suffix), bits, capacity, fmt) == Ok(longs, At(suffix))
  {
    var rest := LongsBytes(longs) + suffix;
    if fmt.hasSizePrefix {
      assert DataBytes(longs, fmt) + suffix == VarIntBytes(|longs|) + rest;
      VarIntAt(|longs|, rest);
    } else {
      assert DataBytes(longs, fmt) + suffix == rest;
    }
    LongsAt(longs, suffix);
  }

  lemma LongsIs(bits: nat, capacity: nat)
    requires 1 <= bits <= 64
    ensures LongsFor(bits, capacity) == (capacity + 64 / bits - 1) / (64 / bits)
  {
  }

  lemma ContainerRoundTrip(p: Packed, maxIndirect: nat, capacity: nat, fmt: Format, suffix: bytes)
    requires Expressible(p, maxIndirect, capacity, fmt)
    ensures ContainerOf(At(ContainerBytes(p, maxIndirect, fmt) + suffix), maxIndirect, capacity, fmt)
         == Ok(p, At(suffix))
  {
    hide PaletteOf, PaletteBytes, DataOf, DataBytes, VarIntBytes, LongsFor, LongsBytes;
    var body := ContainerBytes(p, maxIndirect, fmt)[1..];
    assert ContainerBytes(p, maxIndirect, fmt) + suffix == [p.bits] + (body + suffix);
    SkipAt([p.bits], body + suffix);
    assert BigEndian([p.bits]) == p.bits;
    var s := At(ContainerBytes(p, maxIndirect, fmt) + suffix);
    assert s.Peek(1) == p.bits && s.Skip(1) == At(body + suffix);
    if p.bits == 0 {
      var tail: bytes := if fmt.hasSizePrefix then [0] else [];
      assert body == VarIntBytes(p.single) + tail;
      assert body + suffix == VarIntBytes(p.single) + (tail + suffix);
      VarIntAt(p.single, tail + suffix);
      SkipAt(tail, suffix);
      assert !fmt.hasSizePrefix ==> tail + suffix == suffix;
    } else {
      var data := DataBytes(p.longs, fmt) + suffix;
      assert body == PaletteBytes(p.palette, p.bits <= maxIndirect) + DataBytes(p.longs, fmt);
      assert body + suffix == PaletteBytes(p.palette, p.bits <= maxIndirect) + data;
      PaletteRoundTrip(p.palette, p.bits <= maxIndirect, data);
      LongsIs(p.bits, capacity);
      DataRoundTrip(p.longs, p.bits, capacity, fmt, suffix);
    }
  }

  /** A section that breaks the update's condition parses in every version. */
  lemma StaleParses(state: int32, fmt: Format, suffix: bytes)
    ensures Expressible(AllStale(state), BLOCK_PALETTE_BITS, CELLS, fmt)
    ensures var bs := ContainerBytes(AllStale(state), BLOCK_PALETTE_BITS, fmt);
            ContainerOf(At(bs + suffix), BLOCK_PALETTE_BITS, CELLS, fmt) == Ok(AllStale(state), At(suffix))
  {
    assert LongsFor(1, CELLS) == 64;
    ContainerRoundTrip(AllStale(state), BLOCK_PALETTE_BITS, CELLS, fmt, suffix);
  }

  method ReadPalette(r: Reader, indirect: bool) returns (palette: Option<seq<int32>>)
    modifies r
    ensures match PaletteOf(old(r.State()), indirect)
            case Ok(vs, after) => palette == Some(vs) && r.State() == after
            case Fail => palette == None
  {
    var vs: seq<int32> := [];
    if indirect {
      var n := r.VarInt();
      if n < 0 || n > MAX_PALETTE { return None; }
      ghost var s := r.State();
      for i := 0 to n
        invariant AfterVarInts(r.State(), n - i) == AfterVarInts(s, n)
        invariant vs + VarIntsOf(r.State(), n - i) == VarIntsOf(s, n)
      {
        ghost var tail := VarIntsOf(r.State().AfterVarInt(), n - i - 1);
        var v := r.VarInt();
        assert vs + ([v] + tail) == vs + [v] + tail;
        vs := vs + [v];
      }
      assert vs == VarIntsOf(s, n);
    }
    return if r.failed then None else Some(vs);
  }

  method ReadData(r: Reader, bits: nat, capacity: nat, fmt: Format) returns (data: Option<seq<int64>>)
    requires 1 <= bits <= 64
    modifies r
    ensures match DataOf(old(r.State()), bits, capacity, fmt)
            case Ok(vs, after) => data == Some(vs) && r.State() == after
            case Fail => data == None
  {
    var longs: int := LongsFor(bits, capacity);
    if fmt.hasSizePrefix {
      longs := r.VarInt();
      if r.failed { return None; }
      if longs < 0 || longs > MAX_LONGS { return None; }
    }
    var vs: seq<int64> := [];
    ghost var s := r.State();
    for i := 0 to longs
      invariant AfterLongs(r.State(), longs - i) == AfterLongs(s, longs)
      invariant vs + LongsOf(r.State(), longs - i) == LongsOf(s, longs)
    {
      ghost var tail := LongsOf(r.State().Skip(8), longs - i - 1);
      var v := r.I64();
      assert vs + ([v] + tail) == vs + [v] + tail;
      vs := vs + [v];
    }
    assert vs == LongsOf(s, longs);
    if s.Err() { BrokenLongs(longs); }
    return if r.failed then None else Some(vs);
  }

  lemma {:induction false} BrokenLongs(n: nat)
    ensures AfterLongs(Broken, n).Err()
  {
    if n > 0 { BrokenLongs(n - 1); }
  }

  method ReadPalettedContainer(r: Reader, maxIndirect: nat, capacity: nat, fmt: Format)
    returns (section: Option<Packed>)
    modifies r
    ensures match ContainerOf(old(r.State()), maxIndirect, capacity, fmt)
            case Ok(p, after) => section == Some(p) && r.State() == after
            case Fail => section == None
  {
    var bits := r.Unsigned(1);
    if r.failed { return None; }
    if bits > MAX_BITS_PER_ENTRY { return None; }
    if bits == 0 {
      var single := r.VarInt();
      if r.failed { return None; }
      if fmt.hasSizePrefix {
        r.Skip(1);
      }
      return if r.failed then None else Some(Packed(0, [], single, []));
    }
    var palette := ReadPalette(r, bits <= maxIndirect);
    if palette == None { return None; }
    var longs := ReadData(r, bits, capacity, fmt);
    if longs == None { return None; }
    return Some(Packed(bits, palette.value, AIR, longs.value));
  }

  // -------------------------------------------------------------------- whole columns

  /** One section on the wire: block counts nobody reads, blocks, biomes. */
  datatype SectionWire = SectionWire(counts: bytes, blocks: Packed, biomes: Packed)

  function CountBytes(fmt: Format): nat { if fmt.hasFluidCount then 4 else 2 }

  predicate SectionExpressible(w: SectionWire, fmt: Format)
  {
    && |w.counts| == CountBytes(fmt)
    && Expressible(w.blocks, 8, 4096, fmt)
    && Expressible(w.biomes, 3, 64, fmt)
  }

  function SectionBytes(w: SectionWire, fmt: Format): bytes
    requires SectionExpressible(w, fmt)
  {
    w.counts + (ContainerBytes(w.blocks, 8, fmt) + ContainerBytes(w.biomes, 3, fmt))
  }

  function ColumnBytes(ws: seq<SectionWire>, fmt: Format): bytes
    requires forall w | w in ws :: SectionExpressible(w, fmt)
  {
    if ws == [] then [] else SectionBytes(ws[0], fmt) + ColumnBytes(ws[1..], fmt)
  }

  function BlocksOf(ws: seq<SectionWire>): (ps: seq<Packed>)
    ensures |ps| == |ws| && forall k | 0 <= k < |ws| :: ps[k] == ws[k].blocks
  {
    if ws == [] then [] else [ws[0].blocks] + BlocksOf(ws[1..])
  }

  function SectionOf(s: Stream, fmt: Format): Result<Packed> {
    var s1 := s.Skip(2);
    var s2 := if fmt.hasFluidCount then s1.Skip(2) else s1;
    if s2.Err() then Fail else
    match ContainerOf(s2, BLOCK_PALETTE_BITS, CELLS, fmt)
    case Fail => Fail
    case Ok(blocks, s3) =>
      match ContainerOf(s3, BIOME_PALETTE_BITS, BIOMES, fmt)
      case Fail => Fail
      case Ok(_, s4) => Ok(blocks, s4)
  }

  /** Sections until the buffer is exhausted, `count` of them already read. */
  function ColumnOf(s: Stream, count: nat, fmt: Format): Option<seq<Packed>>
    requires count <= MAX_SECTIONS
    decreases MAX_SECTIONS - count
  {
    if |s.Remaining()| == 0 then Some([])
    else if count == MAX_SECTIONS then None
    else match SectionOf(s, fmt)
      case Fail => None
      case Ok(p, s') =>
        match ColumnOf(s', count + 1, fmt)
        case None => None
        case Some(ps) => Some([p] + ps)
  }

  function Prepend(done: seq<Packed>, rest: Option<seq<Packed>>): Option<seq<Packed>> {
    match rest case None => None case Some(ps) => Some(done + ps)
  }

  lemma PrependOne(done: seq<Packed>, p: Packed, rest: Option<seq<Packed>>)
    ensures Prepend(done + [p], rest) == Prepend(done, match rest case None => None case Some(ps) => Some([p] + ps))
  {
    if rest.Some? {
      assert done + [p] + rest.value == done + ([p] + rest.value);
    }
  }

  function Floor(sections: nat): int32 {
    if sections > OVERWORLD_SECTIONS then OVERWORLD_MIN_Y else NETHER_MIN_Y
  }

  /** What parses, whatever the bytes: no more than 64 sections, each within the limits. */
  lemma {:induction false} ColumnParsed(s: Stream, count: nat, fmt: Format)
    requires count <= 64
    ensures match ColumnOf(s, count, fmt)
            case None => true
            case Some(ps) => count + |ps| <= 64 && forall p | p in ps :: Expressible(p, 8, 4096, fmt)
    decreases 64 - count
  {
    hide SectionOf, Expressible;
    if |s.Remaining()| != 0 && count < MAX_SECTIONS && SectionOf(s, fmt).Ok? {
      SectionParsed(s, fmt);
      ColumnParsed(SectionOf(s, fmt).after, count + 1, fmt);
    }
  }

  lemma SectionParsed(s: Stream, fmt: Format)
    ensures var o := SectionOf(s, fmt); o.Ok? ==> Expressible(o.value, 8, 4096, fmt)
  {
    hide ContainerOf, Expressible;
    var s1 := s.Skip(2);
    ContainerParsed(if fmt.hasFluidCount then s1.Skip(2) else s1, BLOCK_PALETTE_BITS, CELLS, fmt);
  }

  /** A container that parses is one the format can express: no wider, no longer, with a
      palette only when it is indirect. */
  lemma ContainerParsed(s: Stream, maxIndirect: nat, capacity: nat, fmt: Format)
    requires capacity <= 4096
    ensures var o := ContainerOf(s, maxIndirect, capacity, fmt);
            o.Ok? ==> Expressible(o.value, maxIndirect, capacity, fmt)
  {
    hide Stream.VarInt, Stream.AfterVarInt, Stream.Skip, Stream.Peek, PaletteOf, DataOf;
    var bits, s1 := s.Peek(1), s.Skip(1);
    if 1 <= bits <= MAX_BITS_PER_ENTRY {
      PaletteParsed(s1, bits <= maxIndirect);
      match PaletteOf(s1, bits <= maxIndirect)
      case Fail =>
      case Ok(palette, s2) => DataParsed(s2, bits, capacity, fmt);
    }
  }

  lemma PaletteParsed(s: Stream, indirect: bool)
    ensures var o := PaletteOf(s, indirect); o.Ok? ==> |o.value| <= 65536 && (!indirect ==> o.value == [])
  {
  }

  lemma DataParsed(s: Stream, bits: nat, capacity: nat, fmt: Format)
    requires 1 <= bits <= 32 && capacity <= 4096
    ensures var o := DataOf(s, bits, capacity, fmt);
            o.Ok? ==> |o.value| <= 4096 && (fmt.hasSizePrefix || |o.value| == (capacity + 64 / bits - 1) / (64 / bits))
  {
    CeilAtMost(capacity, 64 / bits);
  }

  lemma CeilAtMost(c: nat, n: nat)
    requires n > 0
    ensures (c + n - 1) / n <= c
  {
    Euclid(c + n - 1, n);
    var q := (c + n - 1) / n;
    if q > c {
      MulAtLeast(q - c, n);
      MulSub(q, c, n);
      if c > 0 { MulAtLeast(n, c); }
    }
  }

  lemma SectionRoundTrip(w: SectionWire, fmt: Format, suffix: bytes)
    requires SectionExpressible(w, fmt)
    ensures SectionOf(At(SectionBytes(w, fmt) + suffix), fmt) == Ok(w.blocks, At(suffix))
  {
    var biomes := ContainerBytes(w.biomes, BIOME_PALETTE_BITS, fmt) + suffix;
    var blocks := ContainerBytes(w.blocks, BLOCK_PALETTE_BITS, fmt) + biomes;
    var s := SectionBytes(w, fmt) + suffix;
    assert s == w.counts + blocks;
    assert s[|w.counts|..] == blocks;
    assert s[2..][|w.counts| - 2..] == blocks;
    ContainerRoundTrip(w.blocks, BLOCK_PALETTE_BITS, CELLS, fmt, biomes);
    ContainerRoundTrip(w.biomes, BIOME_PALETTE_BITS, BIOMES, fmt, suffix);
  }

  /** A column of at most 64 expressible sections decodes to exactly its block containers. */
  lemma {:induction false} ColumnRoundTrip(ws: seq<SectionWire>, count: nat, fmt: Format)
    requires forall w | w in ws :: SectionExpressible(w, fmt)
    requires count + |ws| <= 64
    ensures ColumnOf(At(ColumnBytes(ws, fmt)), count, fmt) == Some(BlocksOf(ws))
    decreases |ws|
  {
    if ws != [] {
      SectionRoundTrip(ws[0], fmt, ColumnBytes(ws[1..], fmt));
      ColumnRoundTrip(ws[1..], count + 1, fmt);
    }
  }

  /** A taller column does not parse. */
  lemma {:induction false} TooTall(ws: seq<SectionWire>, count: nat, fmt: Format)
    requires forall w | w in ws :: SectionExpressible(w, fmt)
    requires count <= 64 && count + |ws| > 64
    ensures ColumnOf(At(ColumnBytes(ws, fmt)), count, fmt) == None
    decreases |ws|
  {
    SectionRoundTrip(ws[0], fmt, ColumnBytes(ws[1..], fmt));
    if count < 64 { TooTall(ws[1..], count + 1, fmt); }
  }

  /** One turn of the parser's loop: block counts, blocks, biomes. */
  method ReadSection(r: Reader, fmt: Format) returns (section: Option<Packed>)
    modifies r
    ensures match SectionOf(old(r.State()), fmt)
            case Ok(p, after) => section == Some(p) && r.State() == after
            case Fail => section == None
  {
    r.Skip(2);
    if fmt.hasFluidCount {
      r.Skip(2);
    }
    if r.failed { return None; }
    section := ReadPalettedContainer(r, BLOCK_PALETTE_BITS, CELLS, fmt);
    if section == None { return None; }
    var biomes := ReadPalettedContainer(r, BIOME_PALETTE_BITS, BIOMES, fmt);
    if biomes == None { return None; }
  }

  lemma SectionAfter(s: Stream, fmt: Format)
    ensures SectionOf(s, fmt).Ok? ==> SectionOf(s, fmt).after.At?
  {
  }

  lemma ColumnUnfold(s: Stream, count: nat, fmt: Format, done: seq<Packed>)
    requires count < MAX_SECTIONS && s.Remaining() != []
    ensures match SectionOf(s, fmt)
            case Fail => Prepend(done, ColumnOf(s, count, fmt)) == None
            case Ok(p, s') =>
              Prepend(done, ColumnOf(s, count, fmt)) == Prepend(done + [p], ColumnOf(s', count + 1, fmt))
  {
    hide SectionOf, Prepend;
    assert Prepend(done, None) == None by { NothingToPrepend(done); }
    match SectionOf(s, fmt)
    case Fail =>
    case Ok(p, s') => PrependOne(done, p, ColumnOf(s', count + 1, fmt));
  }

  lemma NothingToPrepend(done: seq<Packed>)
    ensures Prepend(done, None) == None && Prepend(done, Some([])) == Some(done)
  {
    assert done + [] == done;
  }

  lemma ColumnEnds(s: Stream, count: nat, fmt: Format)
    requires count <= MAX_SECTIONS
    ensures s.Remaining() == [] ==> ColumnOf(s, count, fmt) == Some([])
    ensures s.Remaining() != [] && count == MAX_SECTIONS ==> ColumnOf(s, count, fmt) == None
  {
  }

  /** The parser's loop. */
  method ReadSections(data: bytes, fmt: Format) returns (sections: Option<seq<Packed>>)
    ensures sections == ColumnOf(At(data), 0, fmt)
  {
    hide ColumnOf, SectionOf, Prepend;
    var r := new Reader(data);
    var done: seq<Packed> := [];
    ghost var result := ColumnOf(At(data), 0, fmt);
    PrependNone(result);
    while !r.failed && |r.tail| > 0
      invariant fresh(r) && r.State().At? && |done| <= MAX_SECTIONS
      invariant result == Prepend(done, ColumnOf(r.State(), |done|, fmt))
      decreases MAX_SECTIONS - |done|
    {
      ColumnEnds(r.State(), |done|, fmt);
      NothingToPrepend(done);
      if |done| >= MAX_SECTIONS { return None; }
      ColumnUnfold(r.State(), |done|, fmt, done);
      SectionAfter(r.State(), fmt);
      var blocks := ReadSection(r, fmt);
      if blocks == None { return None; }
      done := done + [blocks.value];
    }
    ColumnEnds(r.State(), |done|, fmt);
    NothingToPrepend(done);
    return Some(done);
  }

  lemma PrependNone(rest: Option<seq<Packed>>)
    ensures Prepend([], rest) == rest
  {
    if rest.Some? { assert [] + rest.value == rest.value; }
  }
}
