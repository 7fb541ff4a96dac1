/** How a server packs a section of plain blocks (`protocol/chunk.go` reads it): a grid laid
out row by row, as one value, a palette and the index of each state in it, or the states
themselves, end to end in the bits of 64-bit words. The bits no entry uses hold anything.
Nothing here shares a definition with the reader: widths and counts are written out. */
module PlainSections {
  import opened Words
  import opened Wire
  import opened Sections
  import opened ChunkParse

  // ------------------------------------------------------------------------- the grid

  /** States by y, then z, then x. */
  type Grid = seq<seq<seq<int32>>>

  predicate IsGrid(g: Grid) {
    && |g| == 16
    && (forall y | 0 <= y < 16 :: |g[y]| == 16)
    && forall y, z | 0 <= y < 16 && 0 <= z < 16 :: |g[y][z]| == 16
  }

  /** Rows laid end to end, and layers of rows. */
  function Rows(rows: seq<seq<int32>>): seq<int32> { if rows == [] then [] else rows[0] + Rows(rows[1..]) }

  function Layers(g: Grid): seq<int32> { if g == [] then [] else Rows(g[0]) + Layers(g[1..]) }

  lemma {:induction false} RowsAt(rows: seq<seq<int32>>, z: nat, x: nat)
    requires (forall i | 0 <= i < |rows| :: |rows[i]| == 16) && z < |rows| && x < 16
    ensures |Rows(rows)| == 16 * |rows| && Rows(rows)[16 * z + x] == rows[z][x]
    decreases |rows|
  {
    if |rows| > 1 {
      RowsAt(rows[1..], if z > 0 then z - 1 else 0, x);
    } else {
      assert Rows(rows[1..]) == [];
    }
  }

  lemma {:induction false} LayersAt(g: Grid, y: nat, z: nat, x: nat)
    requires (forall i | 0 <= i < |g| :: |g[i]| == 16) && (forall i, j | 0 <= i < |g| && 0 <= j < 16 :: |g[i][j]| == 16)
    requires y < |g| && z < 16 && x < 16
    ensures |Layers(g)| == 256 * |g| && Layers(g)[256 * y + 16 * z + x] == g[y][z][x]
    decreases |g|
  {
    RowsAt(g[0], z, x);
    if |g| > 1 {
      LayersAt(g[1..], if y > 0 then y - 1 else 0, z, x);
    } else {
      assert Layers(g[1..]) == [];
    }
  }

  // -------------------------------------------------------------------------- packing

  /** Entry i of the data has these low bits: 64 / bits entries fill a word from its low end,
      and none straddles two. */
  predicate Holds(longs: seq<int64>, bits: nat, i: nat, value: int)
    requires 1 <= bits <= 64
  {
    var n := 64 / bits;
    i / n < |longs| && longs[i / n] / Pow2(i % n * bits) % Pow2(bits) == value % Pow2(bits)
  }

  predicate Packs(longs: seq<int64>, bits: nat, values: seq<int>)
    requires 1 <= bits <= 64
  {
    forall i: nat | i < |values| :: Holds(longs, bits, i, values[i])
  }

  datatype Form =
    | Uniform
    | Indirect(bits: nat, palette: seq<int32>, indices: seq<nat>, longs: seq<int64>)
    | Direct(bits: nat, longs: seq<int64>)

  /** The form carries the states: equal, or each found in a palette whose indices fit the
      width, or each fitting the width itself. */
  predicate Carries(form: Form, states: seq<int32>) {
    && |states| == 4096
    && match form
       case Uniform => forall i | 0 <= i < 4096 :: states[i] == states[0]
       case Indirect(bits, palette, indices, longs) =>
         && 1 <= bits <= 31 && |indices| == 4096 && Packs(longs, bits, indices)
         && 0 < |palette| <= Pow2(bits)
         && forall i | 0 <= i < 4096 :: indices[i] < |palette| && palette[indices[i]] == states[i]
       case Direct(bits, longs) =>
         && 1 <= bits <= 32 && Packs(longs, bits, states)
         && (bits <= 31 ==> forall i | 0 <= i < 4096 :: 0 <= states[i] < Pow2(bits))
  }

  function Encoded(form: Form, states: seq<int32>): Packed
    requires Carries(form, states)
  {
    match form
    case Uniform => Packed(0, [], states[0], [])
    case Indirect(bits, palette, _, longs) => Packed(bits, palette, AIR, longs)
    case Direct(bits, longs) => Packed(bits, [], AIR, longs)
  }

  /** What the data holds is what the reader's entry is. */
  lemma HeldEntry(longs: seq<int64>, bits: nat, i: nat, value: int)
    requires 1 <= bits <= 64 && Holds(longs, bits, i, value)
    ensures i / EntriesPerLong(bits) < |longs| && Entry(longs, bits, i) == value % Pow2(bits)
  {
  }

  /** Values can always be packed, in as many words as they take. */
  lemma CanPack(bits: nat, values: seq<int>)
    requires 1 <= bits <= 64 && |values| == 4096
    ensures var longs := PackValues(ZeroLongs(bits), bits, values, 4096);
            |longs| == (4096 + 64 / bits - 1) / (64 / bits) && Packs(longs, bits, values)
  {
    hide Entry, PackValues, Pow2;
    var longs := PackValues(ZeroLongs(bits), bits, values, 4096);
    forall i: nat | i < 4096 ensures Holds(longs, bits, i, values[i]) {
      CoversEntry(longs, bits, CELLS, i);
      PackedEntry(ZeroLongs(bits), bits, values, 4096, i);
      EntryHeld(longs, bits, i);
    }
  }

  lemma EntryHeld(longs: seq<int64>, bits: nat, i: nat)
    requires 1 <= bits <= 64 && i / EntriesPerLong(bits) < |longs|
    ensures var n := 64 / bits; longs[i / n] / Pow2(i % n * bits) % Pow2(bits) == Entry(longs, bits, i)
  {
  }

  /** What any cell of any section reads as, by its bits: the one value; air when it is wider
      than 32 bits or beyond the words there are; the entry itself without a palette; and
      with one, the state it holds at that entry, or air past its end. */
  lemma CellIs(p: Packed, i: nat, value: nat)
    requires 1 <= p.bits <= 64 && i / (64 / p.bits) < |p.longs| ==> Holds(p.longs, p.bits, i, value)
    requires p.bits <= 64 ==> value < Pow2(p.bits)
    ensures p.bits == 0 ==> Cell(p, i) == p.single
    ensures p.bits > 32 ==> Cell(p, i) == 0
    ensures 1 <= p.bits <= 32 && i / (64 / p.bits) >= |p.longs| ==> Cell(p, i) == 0
    ensures 1 <= p.bits <= 32 && i / (64 / p.bits) < |p.longs| && value < 0x8000_0000 ==>
              Cell(p, i) == if p.palette == [] then value
                            else if value < |p.palette| then p.palette[value]
                            else 0
  {
    if 1 <= p.bits <= 32 && i / (64 / p.bits) < |p.longs| {
      HeldEntry(p.longs, p.bits, i, value);
      DivUnique(value, Pow2(p.bits), 0, value);
    }
    hide Pow2, Entry, Holds;
  }

  /** Reading a cell of a packed section gives the state packed there, in all three forms,
      at every width, whatever the unused bits hold. */
  lemma EncodedCell(form: Form, states: seq<int32>, i: nat)
    requires Carries(form, states) && i < 4096
    ensures Cell(Encoded(form, states), i) == states[i]
    ensures !form.Uniform? ==> InData(Encoded(form, states), i)
  {
    hide Entry, Pow2, ToI32, EntriesPerLong, Holds;
    match form
    case Uniform =>
    case Indirect(bits, palette, indices, longs) =>
      HeldEntry(longs, bits, i, indices[i]);
      DivUnique(indices[i], Pow2(bits), 0, indices[i]);
      NarrowEntry(longs, bits, i);
    case Direct(bits, longs) =>
      HeldEntry(longs, bits, i, states[i]);
      WidthFits(bits, states[i]);
  }

  /** The forms whose states and palette keep below a limit that direct entries can hold. */
  predicate Within(form: Form, states: seq<int32>, limit: int)
    requires Carries(form, states)
  {
    && 0 < limit <= 0x8000
    && (forall i | 0 <= i < 4096 :: 0 <= states[i] < limit)
    && (form.Indirect? ==> forall k | 0 <= k < |form.palette| :: 0 <= form.palette[k] < limit)
    && (form.Direct? ==> limit <= Pow2(form.bits))
  }

  lemma EncodedWellFormed(form: Form, states: seq<int32>, limit: int)
    requires Carries(form, states) && Within(form, states, limit)
    ensures WellFormed(Encoded(form, states), limit)
  {
    Pow2Constants();
    hide Entry, Cell, InData, Pow2, Holds;
    forall i: nat | i < 4096 ensures CellOk(Encoded(form, states), i, limit) {
      EncodedCell(form, states, i);
      if form.Indirect? { EncodedIndex(form, states, i); }
    }
    if form.Uniform? { Pow2Step(0); }
  }

  lemma EncodedIndex(form: Form, states: seq<int32>, i: nat)
    requires Carries(form, states) && form.Indirect? && i < 4096
    ensures InData(Encoded(form, states), i)
    ensures Entry(Encoded(form, states).longs, form.bits, i) == form.indices[i]
  {
    hide Entry, Pow2, Holds;
    HeldEntry(form.longs, form.bits, i, form.indices[i]);
    DivUnique(form.indices[i], Pow2(form.bits), 0, form.indices[i]);
  }

  // ------------------------------------------------------------ nothing else is left out

  function Entries(longs: seq<int64>, bits: nat): (es: seq<nat>)
    requires 1 <= bits <= 64
    ensures |es| == CELLS
    ensures forall i: nat | i < 4096 && i / EntriesPerLong(bits) < |longs| :: es[i] == Entry(longs, bits, i)
  {
    seq(CELLS, i requires 0 <= i < 4096 => if i / EntriesPerLong(bits) < |longs| then Entry(longs, bits, i) else 0)
  }

  function FormOf(p: Packed): Form
    requires p.bits <= MAX_BITS_PER_ENTRY
  {
    if p.bits == 0 then Uniform
    else if p.palette == [] then Direct(p.bits, p.longs)
    else Indirect(p.bits, p.palette, Entries(p.longs, p.bits), p.longs)
  }

  /** Every well-formed section, with its fields as the parser leaves them, is the encoding
      of its own cells in one of the three forms. */
  lemma EveryWellFormed(p: Packed, limit: int)
    requires WellFormed(p, limit) && if p.bits == 0 then p.longs == [] else p.single == AIR
    ensures Carries(FormOf(p), Cells(p)) && Encoded(FormOf(p), Cells(p)) == p
  {
    hide Entry, Pow2, LongsFor, EntriesPerLong, Entries, Cell, Cells, CellOk, Holds;
    if p.bits == 0 {
      assert forall i: nat | i < 4096 :: Cell(p, i) == p.single by { UniformCell(p); }
    } else {
      var values := if p.palette == [] then Cells(p) else Entries(p.longs, p.bits);
      forall i: nat | i < 4096
        ensures Holds(p.longs, p.bits, i, values[i])
        ensures p.palette != [] ==> values[i] < |p.palette| && p.palette[values[i]] == Cell(p, i)
        ensures p.palette == [] ==> 0 <= values[i] < limit
      {
        assert CellOk(p, i, limit);
        EntryOfCell(p, i, limit);
        HeldBack(p.longs, p.bits, i);
      }
    }
  }

  lemma HeldBack(longs: seq<int64>, bits: nat, i: nat)
    requires 1 <= bits <= 64 && i / EntriesPerLong(bits) < |longs|
    ensures Holds(longs, bits, i, Entry(longs, bits, i))
  {
    hide Pow2;
    var f := Entry(longs, bits, i);
    DivUnique(f, Pow2(bits), 0, f);
  }

  lemma UniformCell(p: Packed)
    requires p.bits == 0
    ensures forall i: nat :: Cell(p, i) == p.single
  {
  }

  lemma EntryOfCell(p: Packed, i: nat, limit: int)
    requires 1 <= p.bits <= MAX_BITS_PER_ENTRY && limit <= 0x8000 && CellOk(p, i, limit)
    requires p.palette != [] ==> p.bits < MAX_BITS_PER_ENTRY
    ensures InData(p, i)
    ensures p.palette == [] ==> Cell(p, i) == Entry(p.longs, p.bits, i)
    ensures p.palette != [] ==>
              Entry(p.longs, p.bits, i) < |p.palette| && p.palette[Entry(p.longs, p.bits, i)] == Cell(p, i)
    ensures 0 <= Cell(p, i) < limit
  {
    hide Entry, Pow2, EntriesPerLong;
    if p.palette == [] { SmallEntry(p, i, limit); } else { NarrowEntry(p.longs, p.bits, i); }
  }

  lemma SmallEntry(p: Packed, i: nat, limit: int)
    requires 1 <= p.bits <= MAX_BITS_PER_ENTRY && p.palette == [] && limit <= 0x8000
    requires InData(p, i) && 0 <= Cell(p, i) < limit
    ensures Cell(p, i) == Entry(p.longs, p.bits, i)
  {
    Pow2Constants();
    Pow2Monotone(p.bits, 32);
    hide Pow2;
  }
}
