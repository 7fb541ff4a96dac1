/** Chunk columns and the world that holds them (`protocol/chunk.go`,
`internal/world/world.go`). The classes are proved to compute functions on values: what a
column's sections hold, and the columns a world has under their keys. Those functions are
then related to the plainest specification, a map from coordinates to block states whose
domain is what is loaded. */
module Terrain {
  import opened Words
  import opened Wire
  import opened Sections
  import opened ChunkParse

  datatype Pos = Pos(x: int32, y: int32, z: int32)
  datatype Key = Key(x: int32, z: int32)

  /** The column covering a coordinate: an arithmetic shift, so floor division. */
  function KeyOf(x: int32, z: int32): Key { Key(x / 16, z / 16) }

  // ------------------------------------------------------------------ columns, as values

  datatype Column = Column(minY: int32, sections: seq<Packed>)

  /** The section holding a world Y and the local Y within it; int32 arithmetic. */
  function Locate(minY: int32, sections: nat, y: int32): (at: Option<(nat, nat)>)
    ensures at.Some? ==> at.value.0 < sections && at.value.1 < 16
  {
    var rel := ToI32(y - minY);
    if rel < 0 || rel / SECTION_HEIGHT >= sections then None
    else Some((rel / SECTION_HEIGHT, rel % SECTION_HEIGHT))
  }

  /** The state at world coordinates, air outside the column's height. The horizontal
      coordinates are masked to the column, whichever column they name. */
  function ColumnRead(c: Column, x: int32, y: int32, z: int32): int32 {
    match Locate(c.minY, |c.sections|, y)
    case None => AIR
    case Some(at) => Cell(c.sections[at.0], CellIndex(x % 16, at.1, z % 16))
  }

  /** The column after a state is stored at world coordinates. */
  function ColumnPlaced(c: Column, x: int32, y: int32, z: int32, state: int32): Column {
    match Locate(c.minY, |c.sections|, y)
    case None => c
    case Some(at) =>
      var section := Placed(c.sections[at.0], CellIndex(x % 16, at.1, z % 16), state);
      c.(sections := c.sections[at.0 := section])
  }

  /** What a world has loaded. */
  type Columns = map<Key, Column>

  function ReadAt(cs: Columns, p: Pos): int32 {
    var k := KeyOf(p.x, p.z);
    if k in cs then ColumnRead(cs[k], p.x, p.y, p.z) else AIR
  }

  function PlacedAt(cs: Columns, p: Pos, state: int32): Columns {
    var k := KeyOf(p.x, p.z);
    if k in cs then cs[k := ColumnPlaced(cs[k], p.x, p.y, p.z, state)] else cs
  }

  // ------------------------------------------------------------------- columns, in place

  /** A section that was never created reads as a uniform one of air. */
  function ValueOf(s: ChunkSection?): Packed
    reads s
  {
    if s == null then AIR_SECTION else s.Fields()
  }

  method NewSections(blocks: seq<Packed>) returns (sections: seq<ChunkSection?>)
    ensures |sections| == |blocks|
    ensures forall k | 0 <= k < |blocks| ::
              sections[k] != null && fresh(sections[k]) && sections[k].Fields() == blocks[k]
    ensures forall j, k | 0 <= j < k < |blocks| :: sections[j] != sections[k]
  {
    sections := [];
    for i := 0 to |blocks|
      invariant |sections| == i
      invariant forall k | 0 <= k < i :: sections[k] != null && fresh(sections[k]) && sections[k].Fields() == blocks[k]
      invariant forall j, k | 0 <= j < k < i :: sections[j] != sections[k]
    {
      var s := new ChunkSection.Of(blocks[i]);
      sections := sections + [s];
    }
  }

  class ChunkColumn {
    const X: int32
    const Z: int32
    var MinY: int32
    var Sections: seq<ChunkSection?>
    /** The value: what the sections hold. */
    ghost var contents: Column

    constructor (x: int32, z: int32, blocks: seq<Packed>)
      ensures Valid() && fresh(Objects()) && X == x && Z == z
      ensures contents == Column(Floor(|blocks|), blocks)
    {
      var sections := NewSections(blocks);
      X, Z := x, z;
      MinY := Floor(|blocks|);
      Sections := sections;
      contents := Column(Floor(|blocks|), blocks);
    }

    ghost function Objects(): (r: set<object>)
      reads this
      ensures this in r
    {
      {this} + set s: ChunkSection? | s in Sections && s != null :: s
    }

    /** No two places share a section, and each holds what the value says. */
    ghost predicate Valid()
      reads this, Objects()
    {
      && contents.minY == MinY && |contents.sections| == |Sections|
      && (forall i, j | 0 <= i < j < |Sections| && Sections[i] != null :: Sections[i] != Sections[j])
      && (forall i | 0 <= i < |Sections| :: Sections[i] in Sections && ValueOf(Sections[i]) == contents.sections[i])
    }

    function BlockState(x: int32, y: int32, z: int32): (state: int32)
      requires Valid()
      reads this, Objects()
      ensures state == ColumnRead(contents, x, y, z)
    {
      hide Cell;
      match Locate(MinY, |Sections|, y)
      case None => AIR
      case Some(at) =>
        var section := Sections[at.0];
        assert section in Sections && ValueOf(section) == contents.sections[at.0];
        if section == null then AirCell(CellIndex(x % 16, at.1, z % 16)); AIR
        else section.BlockState(x % 16, at.1, z % 16)
    }

    ghost function Home(): Key { Key(X, Z) }

    /** Stores a state, in the section that holds the height, if any does. */
    method SetBlockState(x: int32, y: int32, z: int32, state: int32)
      requires Valid()
      modifies Objects()
      ensures Valid() && fresh(Objects() - old(Objects()))
      ensures contents == ColumnPlaced(old(contents), x, y, z, state)
    {
      hide Placed, CellIndex, Locate;
      var at := Locate(MinY, |Sections|, y);
      if at == None { return; }
      var (i, localY) := at.value;
      var s := SectionFor(i);
      PlaceIn(s, i, CellIndex(x % 16, localY, z % 16), state);
    }

    method PlaceIn(s: ChunkSection, i: nat, index: nat, state: int32)
      requires Valid() && i < |Sections| && Sections[i] == s && index < CELLS
      modifies s, this`contents
      ensures Valid() && Objects() == old(Objects())
      ensures contents == old(contents.(sections := contents.sections[i := Placed(contents.sections[i], index, state)]))
    {
      hide Placed;
      assert ValueOf(Sections[i]) == contents.sections[i];
      s.Place(index, state);
      contents := contents.(sections := contents.sections[i := s.Fields()]);
    }

    /** The section at an index, created on first use. */
    method SectionFor(i: nat) returns (s: ChunkSection)
      requires Valid() && i < |Sections|
      modifies this
      ensures Valid() && fresh(Objects() - old(Objects())) && (s in old(Objects()) || fresh(s))
      ensures |Sections| == old(|Sections|) && s == Sections[i] && s in Objects()
      ensures contents == old(contents)
    {
      if Sections[i] == null {
        assert ValueOf(Sections[i]) == AIR_SECTION;
        s := new ChunkSection();
        Sections := Sections[i := s];
        assert forall c | c in Sections :: c == s || c in old(Sections);
      } else {
        s := Sections[i];
      }
      assert Sections[i] == s && Sections[i] in Sections;
    }
  }

  lemma AirCell(i: nat)
    ensures Cell(AIR_SECTION, i) == AIR
  {
  }

  // ------------------------------------------------------------------ the world, in place

  /** The loaded columns. The read-write lock is held for every whole operation, so each
      method is one atomic step. */
  class World {
    var chunks: map<Key, ChunkColumn>
    /** The value: what each loaded column holds. */
    ghost var columns: Columns
    ghost var Repr: set<object>

    /** Columns are filed under their own coordinates and share no storage. */
    ghost predicate Valid()
      reads this, Repr
      ensures Valid() ==> this in Repr
    {
      && this in Repr && chunks.Keys == columns.Keys
      && (forall k | k in chunks :: ColumnOk(k))
      && (forall k, k' | k in chunks && k' in chunks && k != k' :: chunks[k].Objects() !! chunks[k'].Objects())
    }

    ghost predicate ColumnOk(k: Key)
      requires k in chunks && k in columns
      reads this, Repr
    {
      var c := chunks[k];
      && c in Repr && c.Objects() <= Repr && this !in c.Objects()
      && c.Valid() && c.Home() == k && c.contents == columns[k]
    }

    constructor ()
      ensures Valid() && fresh(Repr)
      ensures chunks == map[] && columns == map[]
    {
      chunks, columns, Repr := map[], map[], {this};
    }

    /** What is not loaded reads as air. */
    function BlockState(x: int32, y: int32, z: int32): (state: int32)
      reads this, Repr
      requires Valid()
      ensures state == ReadAt(columns, Pos(x, y, z))
    {
      var k := KeyOf(x, z);
      if k in chunks then
        assert ColumnOk(k);
        chunks[k].BlockState(x, y, z)
      else AIR
    }

    method HasChunk(x: int32, z: int32) returns (b: bool)
      requires Valid()
      ensures b == (KeyOf(x, z) in columns)
    {
      b := KeyOf(x, z) in chunks;
    }

    method Store(c: ChunkColumn)
      requires Valid() && c.Valid() && c.Objects() !! Repr
      modifies this
      ensures Valid() && Repr == old(Repr) + c.Objects()
      ensures columns == old(columns)[c.Home() := c.contents]
    {
      hide ChunkColumn.Valid, ChunkColumn.Objects;
      chunks := chunks[Key(c.X, c.Z) := c];
      columns := columns[c.Home() := c.contents];
      Repr := Repr + c.Objects();
      forall k | k in chunks ensures ColumnOk(k) {
        if k != c.Home() { assert old(ColumnOk(k)); }
      }
    }

    method Drop(chunkX: int32, chunkZ: int32)
      requires Valid()
      modifies this
      ensures Valid() && Repr == old(Repr)
      ensures columns == old(columns) - {Key(chunkX, chunkZ)}
    {
      hide ChunkColumn.Valid, ChunkColumn.Objects;
      chunks := chunks - {Key(chunkX, chunkZ)};
      columns := columns - {Key(chunkX, chunkZ)};
      forall k | k in chunks ensures ColumnOk(k) { assert old(ColumnOk(k)); }
    }

    method Reset()
      requires Valid()
      modifies this
      ensures Valid() && Repr == old(Repr)
      ensures columns == map[]
    {
      chunks := map[];
      columns := map[];
    }

    /** A single block update, of any state anywhere. */
    method SetBlockState(x: int32, y: int32, z: int32, state: int32)
      requires Valid()
      modifies Repr
      ensures Valid() && fresh(Repr - old(Repr))
      ensures columns == PlacedAt(old(columns), Pos(x, y, z), state)
    {
      hide ChunkColumn.Valid, ChunkColumn.Objects, KeyOf, ColumnPlaced;
      var k := KeyOf(x, z);
      if k in chunks {
        assert ColumnOk(k);
        var c := chunks[k];
        c.SetBlockState(x, y, z, state);
        Repr := Repr + c.Objects();
        columns := columns[k := c.contents];
        assert ColumnOk(k);
        forall k' | k' in chunks && k' != k
          ensures ColumnOk(k') && chunks[k'].Objects() == old(chunks[k'].Objects())
          ensures chunks[k'].Objects() !! c.Objects()
        {
          assert old(ColumnOk(k'));
        }
      }
    }
  }

  // -------------------------------------------------------------- the plain specification

  type BlockMap = imap<Pos, int32>

  ghost function ReadBlock(m: BlockMap, p: Pos): int32 { if p in m then m[p] else 0 }

  /** The 16 by 16 blocks of a column, from its corner. */
  ghost predicate InColumn(p: Pos, key: Key) {
    16 * key.x <= p.x < 16 * key.x + 16 && 16 * key.z <= p.z < 16 * key.z + 16
  }

  lemma InItsColumn(p: Pos, key: Key)
    ensures InColumn(p, key) <==> KeyOf(p.x, p.z) == key
  {
  }

  ghost function StoreColumn(m: BlockMap, key: Key, column: BlockMap): BlockMap {
    imap p: Pos | if InColumn(p, key) then p in column else p in m :: if InColumn(p, key) then column[p] else m[p]
  }

  ghost function DropColumn(m: BlockMap, key: Key): BlockMap {
    imap p: Pos | !InColumn(p, key) && p in m :: m[p]
  }

  /** A block update changes one loaded coordinate and nothing else. */
  ghost function SetBlock(m: BlockMap, p: Pos, state: int32): BlockMap {
    if p in m then m[p := state] else m
  }

  predicate Spans(minY: int32, sections: nat, y: int32) { 0 <= y - minY < 16 * sections }

  /** The section and the cell of it that a coordinate in the span of a column names. */
  function SectionAt(minY: int32, p: Pos): int { (p.y - minY) / SECTION_HEIGHT }

  function CellAt(minY: int32, p: Pos): (i: int)
    ensures 0 <= i < CELLS
  {
    CellIndex(p.x % 16, (p.y - minY) % SECTION_HEIGHT, p.z % 16)
  }

  /** What a column of sections means. */
  ghost function ColumnMap(key: Key, c: Column): BlockMap
  {
    imap p: Pos | InColumn(p, key) && Spans(c.minY, |c.sections|, p.y) ::
      Cell(c.sections[SectionAt(c.minY, p)], CellAt(c.minY, p))
  }

  ghost predicate Loaded(cs: Columns, p: Pos) {
    var k := KeyOf(p.x, p.z);
    k in cs && Spans(cs[k].minY, |cs[k].sections|, p.y)
  }

  /** What a world means. */
  ghost function Blocks(cs: Columns): BlockMap {
    imap p: Pos | Loaded(cs, p) ::
      var c := cs[KeyOf(p.x, p.z)]; Cell(c.sections[SectionAt(c.minY, p)], CellAt(c.minY, p))
  }

  // ------------------------------------------------- what every reachable world satisfies

  predicate PlausibleFloor(minY: int32) { -0x1000_0000 <= minY <= 0 }

  predicate Parsed(p: Packed) { p.palette != [] ==> p.bits < MAX_BITS_PER_ENTRY }

  /** As tall as the parser allows, with a floor it gives, of sections as it makes them. */
  predicate Fair(c: Column) {
    PlausibleFloor(c.minY) && |c.sections| <= 64 && forall s | s in c.sections :: Parsed(s)
  }

  predicate AllFair(cs: Columns) { forall k | k in cs :: Fair(cs[k]) }

  /** Neither a Y below the floor nor one so high that the subtraction wraps is located. */
  lemma LocateExact(minY: int32, sections: nat, y: int32)
    requires PlausibleFloor(minY) && sections <= 64
    ensures Locate(minY, sections, y) ==
            if Spans(minY, sections, y)
            then Some(((y - minY) / 16, (y - minY) % 16)) else None
  {
  }

  /** Reading is reading the map; what is not loaded reads as air. */
  lemma ReadIsMap(cs: Columns, p: Pos)
    requires AllFair(cs)
    ensures ReadAt(cs, p) == ReadBlock(Blocks(cs), p)
  {
    hide Cell, CellIndex, Locate;
    var k := KeyOf(p.x, p.z);
    if k in cs { LocateExact(cs[k].minY, |cs[k].sections|, p.y); }
  }

  lemma StoreIsStore(cs: Columns, key: Key, c: Column)
    ensures Blocks(cs[key := c]) == StoreColumn(Blocks(cs), key, ColumnMap(key, c))
  {
    hide Cell, CellIndex, KeyOf, Spans, SectionAt, CellAt, InColumn;
    forall p: Pos ensures InColumn(p, key) <==> KeyOf(p.x, p.z) == key { InItsColumn(p, key); }
  }

  lemma DropIsDrop(cs: Columns, key: Key)
    ensures Blocks(cs - {key}) == DropColumn(Blocks(cs), key)
  {
    hide Cell, CellIndex, KeyOf, Spans, SectionAt, CellAt, InColumn;
    forall p: Pos ensures InColumn(p, key) <==> KeyOf(p.x, p.z) == key { InItsColumn(p, key); }
  }

  lemma ColumnPlacedAt(c: Column, p: Pos, state: int32)
    requires Fair(c)
    ensures ColumnPlaced(c, p.x, p.y, p.z, state) ==
            if Spans(c.minY, |c.sections|, p.y)
            then var j := SectionAt(c.minY, p);
                 c.(sections := c.sections[j := Placed(c.sections[j], CellAt(c.minY, p), state)])
            else c
  {
    hide Placed, CellIndex, Locate;
    LocateExact(c.minY, |c.sections|, p.y);
  }

  /** Column, section and cell together name one coordinate. */
  lemma OnePlace(minY: int32, p: Pos, q: Pos)
    ensures p == q <==>
      && KeyOf(p.x, p.z) == KeyOf(q.x, q.z)
      && SectionAt(minY, p) == SectionAt(minY, q) && CellAt(minY, p) == CellAt(minY, q)
  {
    CellIndexInjective(p.x % 16, (p.y - minY) % 16, p.z % 16, q.x % 16, (q.y - minY) % 16, q.z % 16);
    hide CellIndex;
  }

  /** Every cell of the section at p is at some coordinate. */
  lemma CellSomewhere(minY: int32, sections: nat, p: Pos, i: nat) returns (q: Pos)
    requires PlausibleFloor(minY) && sections <= 64 && Spans(minY, sections, p.y) && i < CELLS
    ensures KeyOf(q.x, q.z) == KeyOf(p.x, p.z) && Spans(minY, sections, q.y)
    ensures SectionAt(minY, q) == SectionAt(minY, p) && CellAt(minY, q) == i
  {
    q := Pos(p.x / 16 * 16 + i % 16, minY + SectionAt(minY, p) * 16 + i / 256, p.z / 16 * 16 + i / 16 % 16);
  }

  /** The cells a block update reaches, in terms of the section it falls in. */
  lemma PlacedBlock(cs: Columns, p: Pos, state: int32, q: Pos)
    requires AllFair(cs) && Loaded(cs, p)
    ensures var c := cs[KeyOf(p.x, p.z)];
            var cs' := PlacedAt(cs, p, state);
            && (Loaded(cs', q) <==> Loaded(cs, q))
            && (Loaded(cs, q) ==>
                  Blocks(cs')[q] ==
                  if KeyOf(q.x, q.z) == KeyOf(p.x, p.z) && SectionAt(c.minY, q) == SectionAt(c.minY, p)
                  then Cell(Placed(c.sections[SectionAt(c.minY, p)], CellAt(c.minY, p), state), CellAt(c.minY, q))
                  else Blocks(cs)[q])
  {
    hide Placed, Cell, KeyOf, CellAt, ColumnPlaced;
    ColumnPlacedAt(cs[KeyOf(p.x, p.z)], p, state);
  }

  /** The packed world follows the plain map through an update exactly when the coordinate
      is not loaded or the section it falls in meets the condition. */
  lemma SetIff(cs: Columns, p: Pos, state: int32)
    requires AllFair(cs)
    ensures Blocks(PlacedAt(cs, p, state)) == SetBlock(Blocks(cs), p, state)
       <==> (Loaded(cs, p) ==>
               var c := cs[KeyOf(p.x, p.z)]; Exact(c.sections[SectionAt(c.minY, p)], CellAt(c.minY, p), state))
  {
    hide Placed, Cell, KeyOf, CellAt, ColumnPlaced, Exact, Parsed;
    var k := KeyOf(p.x, p.z);
    if Loaded(cs, p) {
      var c := cs[k];
      var j, i := SectionAt(c.minY, p), CellAt(c.minY, p);
      SectionFits(c, j);
      PlacedIff(c.sections[j], i, state);
      if OneCellChanged(c.sections[j], Placed(c.sections[j], i, state), i, state) {
        SetExact(cs, p, state);
      }
      if Blocks(PlacedAt(cs, p, state)) == SetBlock(Blocks(cs), p, state) {
        SetInexact(cs, p, state);
      }
    } else if k in cs {
      ColumnPlacedAt(cs[k], p, state);
    }
  }

  lemma SectionFits(c: Column, j: nat)
    requires Fair(c) && j < |c.sections|
    ensures var s := c.sections[j]; s.palette != [] ==> s.bits < MAX_BITS_PER_ENTRY
  {
    assert Parsed(c.sections[j]);
  }

  lemma SetExact(cs: Columns, p: Pos, state: int32)
    requires AllFair(cs) && Loaded(cs, p)
    requires var c := cs[KeyOf(p.x, p.z)];
             var s := c.sections[SectionAt(c.minY, p)];
             OneCellChanged(s, Placed(s, CellAt(c.minY, p), state), CellAt(c.minY, p), state)
    ensures Blocks(PlacedAt(cs, p, state)) == SetBlock(Blocks(cs), p, state)
  {
    hide Placed, Cell, KeyOf, CellAt, ColumnPlaced, PlacedAt, AllFair, SectionAt, Spans;
    var c := cs[KeyOf(p.x, p.z)];
    forall q: Pos
      ensures Loaded(PlacedAt(cs, p, state), q) <==> Loaded(cs, q)
      ensures Loaded(cs, q) ==> Blocks(PlacedAt(cs, p, state))[q] == if q == p then state else Blocks(cs)[q]
    {
      PlacedBlock(cs, p, state, q);
      OnePlace(c.minY, p, q);
    }
  }

  lemma SetInexact(cs: Columns, p: Pos, state: int32)
    requires AllFair(cs) && Loaded(cs, p)
    requires Blocks(PlacedAt(cs, p, state)) == SetBlock(Blocks(cs), p, state)
    ensures var c := cs[KeyOf(p.x, p.z)];
            var s := c.sections[SectionAt(c.minY, p)];
            OneCellChanged(s, Placed(s, CellAt(c.minY, p), state), CellAt(c.minY, p), state)
  {
    hide Placed, Cell, KeyOf, CellAt, ColumnPlaced, PlacedAt;
    var c := cs[KeyOf(p.x, p.z)];
    var s := c.sections[SectionAt(c.minY, p)];
    var at := CellAt(c.minY, p);
    forall i: nat | i < CELLS ensures Cell(Placed(s, at, state), i) == if i == at then state else Cell(s, i) {
      var q := CellSomewhere(c.minY, |c.sections|, p, i);
      PlacedBlock(cs, p, state, q);
      OnePlace(c.minY, p, q);
    }
  }

  lemma PlacedFair(cs: Columns, p: Pos, state: int32)
    requires AllFair(cs)
    ensures AllFair(PlacedAt(cs, p, state))
  {
    hide Cell, KeyOf, CellIndex, Locate;
    forall s, i: nat ensures Parsed(s) ==> Parsed(Placed(s, i, state)) {}
  }

  // --------------------------------------------------------------- well-formed worlds

  ghost predicate Sound(cs: Columns, limit: int) {
    AllFair(cs) && forall k | k in cs :: forall s | s in cs[k].sections :: WellFormed(s, limit)
  }

  /** While every section is well formed and every new state within its limit, the packed
      world is the plain map, and stays so. */
  lemma SetRefines(cs: Columns, p: Pos, state: int32, limit: int)
    requires Sound(cs, limit) && 0 <= state < limit
    ensures Blocks(PlacedAt(cs, p, state)) == SetBlock(Blocks(cs), p, state)
    ensures Sound(PlacedAt(cs, p, state), limit)
  {
    SetIff(cs, p, state);
    PlacedFair(cs, p, state);
    hide Placed, Cell, KeyOf, CellAt, ColumnPlaced, Exact, WellFormed, AllFair;
    var k := KeyOf(p.x, p.z);
    if k in cs {
      var c := cs[k];
      FairColumn(cs, k);
      ColumnPlacedAt(c, p, state);
      if Loaded(cs, p) {
        var s, i := c.sections[SectionAt(c.minY, p)], CellAt(c.minY, p);
        WellFormedExact(s, i, state, limit);
        PlacedWellFormed(s, i, state, limit);
      }
    }
  }

  lemma FairColumn(cs: Columns, k: Key)
    requires AllFair(cs) && k in cs
    ensures Fair(cs[k])
  {
  }
}
