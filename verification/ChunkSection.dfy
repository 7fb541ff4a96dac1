/** One 16×16×16 cube of block states in the wire's paletted form
(`protocol/chunk.go`): a single value, a palette with packed indices, or packed states. */
module Sections {
  import opened Words

  const AIR: int32 := 0
  const SECTION_HEIGHT := 16
  const CELLS := 4096
  const MAX_BITS_PER_ENTRY := 32
  const DIRECT_BITS := 15

  const AIR_SECTION := Packed(0, [], AIR, [])

  /** The fields of a section at one moment. An empty palette means direct encoding. */
  datatype Packed = Packed(bits: nat, palette: seq<int32>, single: int32, longs: seq<int64>)

  // ------------------------------------------------------- addressing packed entries

  function EntriesPerLong(bits: nat): (n: nat)
    requires 1 <= bits <= 64
    ensures 1 <= n && n * bits <= 64
  {
    64 / bits
  }

  function LongsFor(bits: nat, capacity: nat): nat
    requires 1 <= bits <= 64
  {
    (capacity + EntriesPerLong(bits) - 1) / EntriesPerLong(bits)
  }

  /** The packed value in slot k of long `at`. */
  function SlotValue(longs: seq<int64>, bits: nat, at: nat, k: nat): int
    requires at < |longs|
  {
    Field(longs[at], k * bits, bits)
  }

  function WithSlot(longs: seq<int64>, bits: nat, at: nat, k: nat, v: int): (r: seq<int64>)
    requires at < |longs|
    ensures |r| == |longs|
  {
    longs[at := WithField(longs[at], k * bits, bits, v)]
  }

  /** The packed value of entry i: entries never straddle a long. */
  function Entry(longs: seq<int64>, bits: nat, i: nat): int
    requires 1 <= bits <= 64 && i / EntriesPerLong(bits) < |longs|
  {
    SlotValue(longs, bits, i / EntriesPerLong(bits), i % EntriesPerLong(bits))
  }

  function WithEntry(longs: seq<int64>, bits: nat, i: nat, v: int): (r: seq<int64>)
    requires 1 <= bits <= 64 && i / EntriesPerLong(bits) < |longs|
    ensures |r| == |longs|
  {
    WithSlot(longs, bits, i / EntriesPerLong(bits), i % EntriesPerLong(bits), v)
  }

  /** Enough longs to address every one of `capacity` entries. */
  predicate Covers(longs: seq<int64>, bits: nat, capacity: nat)
  {
    1 <= bits <= 64 && LongsFor(bits, capacity) <= |longs|
  }

  lemma CoversEntry(longs: seq<int64>, bits: nat, capacity: nat, i: nat)
    requires Covers(longs, bits, capacity) && i < capacity
    ensures i / EntriesPerLong(bits) < |longs|
  {
    CeilingBound(EntriesPerLong(bits), capacity, i);
  }

  lemma CeilingBound(n: nat, capacity: nat, i: nat)
    requires n > 0 && i < capacity
    ensures i / n < (capacity + n - 1) / n
  {
    Euclid(i, n);
    Euclid(capacity + n - 1, n);
    QuotientOrder(n, i / n, (capacity + n - 1) / n, i % n, (capacity + n - 1) % n);
  }

  lemma QuotientOrder(n: nat, q: int, q': int, r: int, r': int)
    requires 0 <= r < n && 0 <= r' < n && q * n + r + n <= q' * n + r'
    ensures q < q'
  {
    if q >= q' { MulAtLeast(q - q' + 1, n); }
  }

  lemma SlotsDisjoint(bits: nat, k: nat, k': nat)
    requires 1 <= bits <= 64 && k < EntriesPerLong(bits) && k' < EntriesPerLong(bits)
    ensures k * bits + bits <= 64
    ensures k < k' ==> k * bits + bits <= k' * bits
  {
    SlotBounds(EntriesPerLong(bits), bits, k, k');
  }

  lemma SlotBounds(n: nat, bits: nat, k: nat, k': nat)
    requires k < n && n * bits <= 64
    ensures k * bits + bits <= 64
    ensures k < k' ==> k * bits + bits <= k' * bits
  {
    MulSub(n, k, bits);
    MulAtLeast(n - k, bits);
    MulSub(k', k, bits);
    if k < k' { MulAtLeast(k' - k, bits); }
  }

  lemma WithSlotFrame(longs: seq<int64>, bits: nat, at: nat, k: nat, v: int, at': nat, k': nat)
    requires at < |longs| && at' < |longs|
    requires 1 <= bits <= 64 && k < EntriesPerLong(bits) && k' < EntriesPerLong(bits)
    ensures SlotValue(WithSlot(longs, bits, at, k, v), bits, at', k')
         == if at' == at && k' == k then v % Pow2(bits) else SlotValue(longs, bits, at', k')
  {
    if at == at' {
      SlotsDisjoint(bits, k, k');
      SlotsDisjoint(bits, k', k);
      WithFieldFrame(longs[at], k * bits, bits, v, k' * bits);
    }
  }

  lemma SameAddress(i: nat, j: nat, n: nat)
    requires n > 0
    ensures 0 <= i / n && 0 <= j / n && 0 <= i % n < n && 0 <= j % n < n
    ensures i / n == j / n && i % n == j % n <==> i == j
  {
    Euclid(i, n);
    Euclid(j, n);
    NonNegativeQuotient(i, n);
    NonNegativeQuotient(j, n);
  }

  lemma NonNegativeQuotient(i: nat, n: nat)
    requires n > 0
    ensures 0 <= i / n
  {
  }

  /** Writing one entry changes that entry, to the value's low bits, and no other. */
  lemma WithEntryFrame(longs: seq<int64>, bits: nat, i: nat, v: int, j: nat)
    requires 1 <= bits <= 64
    requires i / EntriesPerLong(bits) < |longs| && j / EntriesPerLong(bits) < |longs|
    ensures Entry(WithEntry(longs, bits, i, v), bits, j)
         == if j == i then v % Pow2(bits) else Entry(longs, bits, j)
  {
    hide SlotValue, WithSlot, EntriesPerLong;
    var n := EntriesPerLong(bits);
    SameAddress(i, j, n);
    WithSlotFrame(longs, bits, i / n, i % n, v, j / n, j % n);
  }

  // ------------------------------------------------------------------ reading a cell

  /** Index order is y, then z, then x. */
  function CellIndex(x: int, y: int, z: int): (i: int)
    ensures Local(x, y, z) ==> 0 <= i < CELLS
  {
    (y * SECTION_HEIGHT + z) * SECTION_HEIGHT + x
  }

  predicate Local(x: int, y: int, z: int) {
    0 <= x < 16 && 0 <= y < 16 && 0 <= z < 16
  }

  lemma CellIndexInjective(x: int, y: int, z: int, x': int, y': int, z': int)
    requires Local(x, y, z) && Local(x', y', z')
    ensures CellIndex(x, y, z) == 256 * y + 16 * z + x && 0 <= CellIndex(x, y, z) < 4096
    ensures CellIndex(x, y, z) == CellIndex(x', y', z') <==> x == x' && y == y' && z == z'
  {
  }

  /** What a packed entry means. (A parsed section has a palette only at widths whose packed
      values are never negative, so the lower test decides nothing for it.) */
  function Meant(palette: seq<int32>, entry: int): int32 {
    var value := ToI32(entry);
    if palette == [] then value
    else if 0 <= value < |palette| then palette[value]
    else AIR
  }

  /** The data holds entry i. */
  predicate InData(p: Packed, i: nat)
    requires 1 <= p.bits <= 64
  {
    i / EntriesPerLong(p.bits) < |p.longs|
  }

  /** The state of a cell. */
  function Cell(p: Packed, index: nat): int32
  {
    if p.bits == 0 then p.single
    else if p.bits > MAX_BITS_PER_ENTRY then AIR
    else if !InData(p, index) then AIR
    else Meant(p.palette, Entry(p.longs, p.bits, index))
  }

  lemma NarrowEntry(longs: seq<int64>, bits: nat, i: nat)
    requires 1 <= bits < 32 && i / EntriesPerLong(bits) < |longs|
    ensures 0 <= Entry(longs, bits, i) < Pow2(31)
    ensures ToI32(Entry(longs, bits, i)) == Entry(longs, bits, i)
  {
    Pow2Monotone(bits, 31);
    Pow2Constants();
  }

  // ------------------------------------------------------------------- packing cells

  /** Data with its first n entries overwritten by values, whatever else it held. */
  function PackValues(longs: seq<int64>, bits: nat, values: seq<int>, n: nat): (r: seq<int64>)
    requires Covers(longs, bits, |values|) && n <= |values|
    ensures |r| == |longs|
  {
    if n == 0 then longs
    else
      CoversEntry(longs, bits, |values|, n - 1);
      WithEntry(PackValues(longs, bits, values, n - 1), bits, n - 1, values[n - 1])
  }

  /** Packed one by one, values read back at their index, and what was not packed is kept. */
  lemma {:induction false} PackedEntry(longs: seq<int64>, bits: nat, values: seq<int>, n: nat, i: nat)
    requires Covers(longs, bits, |values|) && n <= |values|
    requires i / EntriesPerLong(bits) < |longs|
    ensures Entry(PackValues(longs, bits, values, n), bits, i)
         == if i < n then values[i] % Pow2(bits) else Entry(longs, bits, i)
    decreases n
  {
    hide Entry, WithEntry;
    if n > 0 {
      CoversEntry(longs, bits, |values|, n - 1);
      PackedEntry(longs, bits, values, n - 1, i);
      WithEntryFrame(PackValues(longs, bits, values, n - 1), bits, n - 1, values[n - 1], i);
    }
  }

  function ZeroLongs(bits: nat): (longs: seq<int64>)
    requires 1 <= bits <= 64
    ensures Covers(longs, bits, CELLS)
  {
    seq(LongsFor(bits, CELLS), _ => 0)
  }

  lemma ZeroEntry(bits: nat, i: nat)
    requires 1 <= bits <= 64 && i < CELLS
    ensures i / EntriesPerLong(bits) < |ZeroLongs(bits)| && Entry(ZeroLongs(bits), bits, i) == 0
  {
    CoversEntry(ZeroLongs(bits), bits, CELLS, i);
    var n := EntriesPerLong(bits);
    SameAddress(i, i, n);
    hide EntriesPerLong, LongsFor, SlotValue, Pow2, Field;
    ZeroSlot(ZeroLongs(bits), bits, i / n, i % n);
  }

  lemma ZeroSlot(longs: seq<int64>, bits: nat, at: nat, k: nat)
    requires at < |longs| && longs[at] == 0
    ensures SlotValue(longs, bits, at, k) == 0
  {
    ZeroField(k * bits, bits);
  }

  function Cells(p: Packed): (cells: seq<int32>)
    ensures |cells| == CELLS && forall i: nat | i < CELLS :: cells[i] == Cell(p, i)
  {
    seq(CELLS, i requires 0 <= i < CELLS => Cell(p, i))
  }

  // --------------------------------------------------------------- an update, on values

  /** The section repacked as direct entries of 15 bits. */
  function Expanded(p: Packed): Packed {
    Packed(DIRECT_BITS, [], p.single, PackValues(ZeroLongs(DIRECT_BITS), DIRECT_BITS, Cells(p), CELLS))
  }

  function FirstIndex(palette: seq<int32>, state: int32): (i: nat)
    requires state in palette
    ensures i < |palette| && palette[i] == state && state !in palette[..i]
  {
    if palette[0] == state then 0 else 1 + FirstIndex(palette[1..], state)
  }

  /** The section ready to hold a state, and the packed value that goes in. */
  function Resolved(p: Packed, state: int32): (Packed, int) {
    if p.palette == [] then (p, state)
    else if state in p.palette then (p, FirstIndex(p.palette, state))
    else if |p.palette| < Pow2(p.bits) then (p.(palette := p.palette + [state]), |p.palette|)
    else (Expanded(p), state)
  }

  /** One entry overwritten, if the data reaches it. */
  function Written(p: Packed, index: nat, value: int): Packed
    requires 1 <= p.bits <= 64
  {
    if InData(p, index) then p.(longs := WithEntry(p.longs, p.bits, index, value)) else p
  }

  function Splittable(p: Packed): (q: Packed)
    ensures 1 <= q.bits <= MAX_BITS_PER_ENTRY
  {
    if p.bits == 0 || p.bits > MAX_BITS_PER_ENTRY then Expanded(p) else p
  }

  /** The fields after a state is stored at a cell. */
  function Placed(p: Packed, index: nat, state: int32): Packed {
    var (q, value) := Resolved(Splittable(p), state);
    Written(q, index, value)
  }

  // ------------------------------------------------------- what each step does to cells

  /** Expansion keeps the low 15 bits of every cell. */
  lemma ExpandedCell(p: Packed, i: nat)
    requires i < CELLS
    ensures InData(Expanded(p), i) && Cell(Expanded(p), i) == Cell(p, i) % 0x8000
  {
    hide Entry, PackValues, Cell;
    ZeroEntry(DIRECT_BITS, i);
    PackedEntry(ZeroLongs(DIRECT_BITS), DIRECT_BITS, Cells(p), CELLS, i);
    Fits15(Cell(p, i));
    DirectCell(Expanded(p), i);
  }

  lemma DirectCell(p: Packed, i: nat)
    requires 1 <= p.bits <= MAX_BITS_PER_ENTRY && p.palette == [] && InData(p, i)
    ensures Cell(p, i) == ToI32(Entry(p.longs, p.bits, i))
  {
  }

  lemma Fits15(x: int)
    ensures Pow2(DIRECT_BITS) == 0x8000
    ensures ToI32(x % Pow2(DIRECT_BITS)) == x % Pow2(DIRECT_BITS)
  {
    Pow2Constants();
    hide Pow2;
    ToI32Id(x % 0x8000);
  }

  /** A write changes the entry it reaches, to what the value's low bits mean. */
  lemma WrittenCell(p: Packed, index: nat, value: int, i: nat)
    requires 1 <= p.bits <= MAX_BITS_PER_ENTRY
    ensures Cell(Written(p, index, value), i)
         == if i == index && InData(p, index) then Meant(p.palette, value % Pow2(p.bits)) else Cell(p, i)
  {
    hide Entry, WithEntry, Meant, EntriesPerLong;
    if InData(p, index) && InData(p, i) {
      WithEntryFrame(p.longs, p.bits, index, value, i);
    }
  }

  /** A cell whose entry is the index the palette would grow to. */
  predicate Stale(p: Packed, i: nat)
    requires 1 <= p.bits <= 64
  {
    InData(p, i) && Entry(p.longs, p.bits, i) == |p.palette|
  }

  lemma AppendedCell(p: Packed, state: int32, i: nat)
    requires 1 <= p.bits < MAX_BITS_PER_ENTRY && p.palette != []
    ensures Cell(p.(palette := p.palette + [state]), i) == if Stale(p, i) then state else Cell(p, i)
    ensures Stale(p, i) ==> Cell(p, i) == AIR
  {
    hide Entry, EntriesPerLong, Pow2;
    if InData(p, i) { NarrowEntry(p.longs, p.bits, i); }
  }

  /** Growing a palette leaves every cell alone exactly when no entry already holds the
      index the new state gets, or the new state is the air such an entry used to read as.
      The parser does not check this. */
  lemma AppendIsSilentIff(p: Packed, state: int32)
    requires 1 <= p.bits < MAX_BITS_PER_ENTRY && p.palette != []
    ensures SameCells(p, p.(palette := p.palette + [state]))
       <==> state == AIR || forall i: nat | i < CELLS :: !Stale(p, i)
  {
    hide Cell, Stale;
    var p' := p.(palette := p.palette + [state]);
    forall i: nat | i < CELLS ensures Cell(p', i) == Cell(p, i) <==> state == AIR || !Stale(p, i) {
      AppendedCell(p, state, i);
    }
    if SameCells(p, p') {
      forall i: nat | i < CELLS ensures state == AIR || !Stale(p, i) { assert Cell(p', i) == Cell(p, i); }
    }
  }

  // --------------------------------------------------- when an update changes one cell

  ghost predicate SameCells(p: Packed, p': Packed)
  {
    forall i: nat | i < CELLS :: Cell(p', i) == Cell(p, i)
  }

  /** The cell function of a section after one cell is overwritten. */
  ghost predicate OneCellChanged(p: Packed, p': Packed, index: nat, state: int32)
  {
    forall i: nat | i < CELLS :: Cell(p', i) == if i == index then state else Cell(p, i)
  }

  /** The update repacks the section: it is uniform, or its palette is full and lacks the
      state. */
  predicate Repacks(p: Packed, state: int32) {
    || p.bits == 0 || p.bits > MAX_BITS_PER_ENTRY
    || (p.palette != [] && state !in p.palette && |p.palette| >= Pow2(p.bits))
  }

  predicate InDirect(state: int) { 0 <= state < 0x8000 }

  /** What an update needs in order to change the one cell it names. A repacked section must
      hold 15-bit states only. Otherwise the data must reach the cell, or leaving it air be
      what was asked; and the state must fit a direct entry, or be found at an index that
      fits an entry, or be appended where no other cell already holds its index. */
  ghost predicate Exact(p: Packed, index: nat, state: int32) {
    if Repacks(p, state) then
      InDirect(state) && forall i: nat | i < CELLS && i != index :: InDirect(Cell(p, i))
    else if !InData(p, index) then state == AIR
    else if p.palette == [] then p.bits == 32 || 0 <= state < Pow2(p.bits)
    else if state in p.palette then FirstIndex(p.palette, state) < Pow2(p.bits)
    else state == AIR || forall i: nat | i < CELLS && i != index :: !Stale(p, i)
  }

  /** For any section as parsed and any state, an update changes exactly the cell it names
      exactly when it meets that condition. */
  lemma PlacedIff(p: Packed, index: nat, state: int32)
    requires (p.palette != [] ==> p.bits < MAX_BITS_PER_ENTRY) && index < CELLS
    ensures OneCellChanged(p, Placed(p, index, state), index, state) <==> Exact(p, index, state)
  {
    hide Cell, InData, Expanded, Written, Stale;
    if Repacks(p, state) {
      RepackedIff(p, index, state);
    } else if p.palette == [] {
      DirectIff(p, index, state);
    } else if state in p.palette {
      FoundIff(p, index, state);
    } else {
      AppendedIff(p, index, state);
    }
  }

  lemma RepackedIff(p: Packed, index: nat, state: int32)
    requires index < CELLS && Repacks(p, state)
    ensures OneCellChanged(p, Placed(p, index, state), index, state)
       <==> InDirect(state) && forall i: nat | i < CELLS && i != index :: InDirect(Cell(p, i))
  {
    RepackedPlaced(p, index, state);
    var p' := Placed(p, index, state);
    hide Cell, Placed, Repacks, Pow2, InDirect;
    forall i: nat | i < CELLS
      ensures Cell(p', i) == (if i == index then state else Cell(p, i))
         <==> InDirect(if i == index then state else Cell(p, i))
    {
      RepackedCell(p, index, state, i);
      DirectIffKept(if i == index then state else Cell(p, i));
    }
    if OneCellChanged(p, p', index, state) {
      assert Cell(p', index) == state;
      forall i: nat | i < CELLS && i != index ensures InDirect(Cell(p, i)) { assert Cell(p', i) == Cell(p, i); }
    }
  }

  lemma DirectIffKept(x: int)
    ensures x % 0x8000 == x <==> InDirect(x)
  {
  }

  lemma RepackedPlaced(p: Packed, index: nat, state: int32)
    requires Repacks(p, state)
    ensures Placed(p, index, state) == Written(Expanded(p), index, state)
  {
    var q := Expanded(p);
    assert q.bits == DIRECT_BITS && q.palette == [];
    hide Expanded, Written;
  }

  lemma RepackedCell(p: Packed, index: nat, state: int32, i: nat)
    requires index < CELLS && i < CELLS
    ensures Cell(Written(Expanded(p), index, state), i)
         == if i == index then state % 0x8000 else Cell(p, i) % 0x8000
  {
    var q := Expanded(p);
    assert q.bits == DIRECT_BITS && q.palette == [];
    hide Cell, InData, Expanded, Written, Pow2;
    Fits15(state);
    ExpandedCell(p, i);
    ExpandedCell(p, index);
    WrittenCell(q, index, state, i);
  }

  lemma DirectIff(p: Packed, index: nat, state: int32)
    requires 1 <= p.bits <= MAX_BITS_PER_ENTRY && p.palette == [] && index < CELLS
    ensures OneCellChanged(p, Written(p, index, state), index, state)
       <==> if InData(p, index) then p.bits == MAX_BITS_PER_ENTRY || 0 <= state < Pow2(p.bits) else state == AIR
  {
    WidthFits(p.bits, state);
    WrittenIff(p, index, state, state);
    if !InData(p, index) { assert Cell(p, index) == AIR; }
  }

  lemma WidthFits(bits: nat, state: int32)
    requires 1 <= bits <= MAX_BITS_PER_ENTRY
    ensures ToI32(state % Pow2(bits)) == state <==> bits == MAX_BITS_PER_ENTRY || 0 <= state < Pow2(bits)
  {
    Pow2Constants();
    hide Pow2;
    if bits == MAX_BITS_PER_ENTRY {
      ToI32Mod(state);
    } else {
      HalfWord(bits);
      ToI32Id(state % Pow2(bits));
      if 0 <= state < Pow2(bits) { DivUnique(state, Pow2(bits), 0, state); }
    }
  }

  lemma HalfWord(bits: nat)
    requires bits < 32
    ensures Pow2(bits) <= WORD32 / 2
  {
    Pow2Constants();
    Pow2Step(31);
    Pow2Monotone(bits, 31);
  }

  /** A write is exact when what it stores means the state, or when it is out of reach and
      nothing was to change. */
  lemma WrittenIff(p: Packed, index: nat, value: int, state: int32)
    requires 1 <= p.bits <= MAX_BITS_PER_ENTRY && index < CELLS
    ensures OneCellChanged(p, Written(p, index, value), index, state)
       <==> if InData(p, index) then Meant(p.palette, value % Pow2(p.bits)) == state else Cell(p, index) == state
  {
    hide Cell, Meant, InData, Written, Pow2;
    var p' := Written(p, index, value);
    forall i: nat | i < CELLS
      ensures Cell(p', i)
           == if i == index && InData(p, index) then Meant(p.palette, value % Pow2(p.bits)) else Cell(p, i)
    {
      WrittenCell(p, index, value, i);
    }
    if OneCellChanged(p, p', index, state) { assert Cell(p', index) == state; }
  }

  lemma FoundIff(p: Packed, index: nat, state: int32)
    requires 1 <= p.bits < MAX_BITS_PER_ENTRY && state in p.palette && index < CELLS
    ensures OneCellChanged(p, Written(p, index, FirstIndex(p.palette, state)), index, state)
       <==> if InData(p, index) then FirstIndex(p.palette, state) < Pow2(p.bits) else state == AIR
  {
    var value := FirstIndex(p.palette, state);
    WrittenIff(p, index, value, state);
    if !InData(p, index) { assert Cell(p, index) == AIR; }
    FoundMeans(p.palette, state, p.bits);
  }

  lemma FoundMeans(palette: seq<int32>, state: int32, bits: nat)
    requires state in palette && bits < 32
    ensures Meant(palette, FirstIndex(palette, state) % Pow2(bits)) == state
       <==> FirstIndex(palette, state) < Pow2(bits)
  {
    hide Pow2;
    var value := FirstIndex(palette, state);
    var low := value % Pow2(bits);
    HalfWord(bits);
    ToI32Id(low);
    if value < Pow2(bits) {
      DivUnique(value, Pow2(bits), 0, value);
    } else {
      assert low < value && palette[low] in palette[..value];
    }
  }

  lemma AppendedIff(p: Packed, index: nat, state: int32)
    requires 1 <= p.bits < MAX_BITS_PER_ENTRY && p.palette != [] && state !in p.palette && |p.palette| < Pow2(p.bits)
    requires index < CELLS
    ensures Placed(p, index, state) == Written(p.(palette := p.palette + [state]), index, |p.palette|)
    ensures OneCellChanged(p, Placed(p, index, state), index, state)
       <==> if InData(p, index) then state == AIR || forall i: nat | i < CELLS && i != index :: !Stale(p, i)
            else state == AIR
  {
    var q := p.(palette := p.palette + [state]);
    var p' := Written(q, index, |p.palette|);
    assert p' == Placed(p, index, state);
    AppendMeans(p, state);
    assert !InData(p, index) ==> Cell(p, index) == AIR;
    hide Cell, Meant, Written, Stale, Pow2, Placed;
    forall i: nat | i < CELLS
      ensures Cell(p', i) == if (i == index && InData(p, index)) || Stale(p, i) then state else Cell(p, i)
      ensures Stale(p, i) ==> Cell(p, i) == AIR && InData(p, i)
    {
      WrittenCell(q, index, |p.palette|, i);
      AppendedCell(p, state, i);
      StaleInData(p, i);
    }
    hide InData;
    if OneCellChanged(p, p', index, state) {
      assert Cell(p', index) == state;
      forall i: nat | i < CELLS && i != index ensures state == AIR || !Stale(p, i) { assert Cell(p', i) == Cell(p, i); }
    }
  }

  lemma StaleInData(p: Packed, i: nat)
    requires 1 <= p.bits <= 64
    ensures Stale(p, i) ==> InData(p, i)
  {
  }

  lemma AppendMeans(p: Packed, state: int32)
    requires 1 <= p.bits < MAX_BITS_PER_ENTRY && |p.palette| < Pow2(p.bits)
    ensures Meant(p.palette + [state], |p.palette| % Pow2(p.bits)) == state
  {
    hide Pow2;
    HalfWord(p.bits);
    ToI32Id(|p.palette|);
    DivUnique(|p.palette|, Pow2(p.bits), 0, |p.palette|);
  }

  /** One-bit entries that are all 1, over a palette of one state: every cell reads air. */
  function AllStale(state: int32): Packed { Packed(1, [state], AIR, seq(LongsFor(1, CELLS), _ => -1)) }

  /** Updating one cell of it turns all 4096 into the new state. */
  lemma OneUpdateEveryCell(prior: int32, state: int32, index: nat, i: nat)
    requires index < CELLS && i < CELLS && state != prior
    ensures Cell(AllStale(prior), i) == AIR && Cell(Placed(AllStale(prior), index, state), i) == state
  {
    var p := AllStale(prior);
    Pow2Step(0);
    Ones(prior, i);
    AppendedCell(p, state, i);
    AppendMeans(p, state);
    WrittenCell(p.(palette := p.palette + [state]), index, 1, i);
  }

  lemma Ones(state: int32, i: nat)
    requires i < CELLS
    ensures InData(AllStale(state), i) && Stale(AllStale(state), i)
  {
    var p := AllStale(state);
    CoversEntry(p.longs, 1, CELLS, i);
    var k := i % EntriesPerLong(1);
    DivUnique(-1, Pow2(k), -1, Pow2(k) - 1);
    Pow2Step(0);
  }

  // ----------------------------------------------------------------- well-formedness

  /** Cell i is packed inside the data, holds a valid palette index, and reads in range. */
  ghost predicate CellOk(p: Packed, i: nat, limit: int)
    requires p.bits <= MAX_BITS_PER_ENTRY
  {
    && (p.bits > 0 ==> InData(p, i) && (p.palette != [] ==> Entry(p.longs, p.bits, i) < |p.palette|))
    && 0 <= Cell(p, i) < limit
  }

  /** The sections a server sends, and the client keeps: the data covers every cell, an
      indirect palette fits its width, every packed index is below the palette length, and
      every state lies in [0, limit), which a direct section can hold. */
  ghost predicate WellFormed(p: Packed, limit: int)
  {
    && 0 < limit <= 0x8000
    && p.bits <= MAX_BITS_PER_ENTRY
    && (p.bits == 0 || p.bits == MAX_BITS_PER_ENTRY ==> p.palette == [])
    && |p.palette| <= Pow2(p.bits)
    && (p.bits > 0 && p.palette == [] ==> limit <= Pow2(p.bits))
    && (forall k | 0 <= k < |p.palette| :: 0 <= p.palette[k] < limit)
    && (forall i: nat | i < CELLS :: CellOk(p, i, limit))
  }

  /** Well-formed sections meet the condition for every state below the limit. */
  lemma WellFormedExact(p: Packed, index: nat, state: int32, limit: int)
    requires WellFormed(p, limit) && index < CELLS && 0 <= state < limit
    ensures Exact(p, index, state)
  {
    hide Entry, Pow2;
    forall i: nat | i < CELLS
      ensures CellOk(p, i, limit) && InDirect(Cell(p, i)) && (p.bits > 0 ==> InData(p, i))
      ensures p.bits > 0 && p.palette != [] ==> !Stale(p, i)
    {
      assert CellOk(p, i, limit);
    }
  }

  /** So an update of a well-formed section changes one cell, and leaves it well formed. */
  lemma PlacedWellFormed(p: Packed, index: nat, state: int32, limit: int)
    requires WellFormed(p, limit) && index < CELLS && 0 <= state < limit
    ensures OneCellChanged(p, Placed(p, index, state), index, state)
    ensures WellFormed(Placed(p, index, state), limit)
  {
    WellFormedExact(p, index, state, limit);
    PlacedIff(p, index, state);
    if Repacks(p, state) {
      RepackedWellFormed(p, index, state, limit);
    } else if p.palette != [] && state !in p.palette {
      AppendWellFormed(p, state, limit);
      WriteWellFormed(p.(palette := p.palette + [state]), index, |p.palette|, state, limit);
    } else {
      hide WellFormed, OneCellChanged, Exact;
      WriteWellFormed(p, index, Resolved(p, state).1, state, limit);
    }
  }

  lemma RepackedWellFormed(p: Packed, index: nat, state: int32, limit: int)
    requires WellFormed(p, limit) && index < CELLS && 0 <= state < limit && Repacks(p, state)
    ensures WellFormed(Placed(p, index, state), limit)
  {
    RepackedPlaced(p, index, state);
    ExpandedWellFormed(p, limit);
    assert Expanded(p).bits == DIRECT_BITS && Expanded(p).palette == [];
    hide Expanded, Placed, WellFormed;
    WriteWellFormed(Expanded(p), index, state, state, limit);
  }

  lemma ExpandedWellFormed(p: Packed, limit: int)
    requires WellFormed(p, limit)
    ensures WellFormed(Expanded(p), limit)
  {
    var q := Expanded(p);
    assert q.bits == DIRECT_BITS && q.palette == [];
    Fits15(0);
    hide Expanded, Entry, Pow2, Cell, InData, PackValues;
    forall i: nat | i < CELLS ensures CellOk(q, i, limit) {
      assert CellOk(p, i, limit);
      ExpandedCell(p, i);
      SmallKept(Cell(p, i), limit);
    }
  }

  lemma SmallKept(x: int, limit: int)
    requires 0 <= x < limit <= 0x8000
    ensures x % 0x8000 == x
  {
  }

  lemma AppendWellFormed(p: Packed, state: int32, limit: int)
    requires WellFormed(p, limit) && p.bits > 0 && p.palette != [] && 0 <= state < limit
    requires |p.palette| < Pow2(p.bits)
    ensures WellFormed(p.(palette := p.palette + [state]), limit)
    ensures SameCells(p, p.(palette := p.palette + [state]))
  {
    hide Entry, Pow2;
    var p' := p.(palette := p.palette + [state]);
    forall i: nat | i < CELLS ensures CellOk(p', i, limit) && Cell(p', i) == Cell(p, i) {
      assert CellOk(p, i, limit);
      AppendedCell(p, state, i);
    }
  }

  /** A packed value that means `state`. */
  ghost predicate Denotes(p: Packed, value: int, state: int32)
  {
    if p.palette == [] then value == state
    else 0 <= value < |p.palette| && p.palette[value] == state
  }

  /** A write of a value that denotes its state changes one cell of a well-formed section,
      to that state, and keeps it well formed. */
  lemma WriteWellFormed(p: Packed, index: nat, value: int, state: int32, limit: int)
    requires WellFormed(p, limit) && p.bits > 0 && index < CELLS && 0 <= state < limit
    requires Denotes(p, value, state)
    ensures WellFormed(Written(p, index, value), limit)
    ensures OneCellChanged(p, Written(p, index, value), index, state)
  {
    forall i: nat | i < CELLS
      ensures Cell(Written(p, index, value), i) == if i == index then state else Cell(p, i)
      ensures CellOk(Written(p, index, value), i, limit)
    {
      assert CellOk(p, i, limit);
      assert CellOk(p, index, limit);
      CellAfterWrite(p, index, value, state, limit, i);
    }
  }

  lemma CellAfterWrite(p: Packed, index: nat, value: int, state: int32, limit: int, i: nat)
    requires 1 <= p.bits <= MAX_BITS_PER_ENTRY && (p.palette != [] ==> p.bits < MAX_BITS_PER_ENTRY)
    requires InData(p, index) && CellOk(p, i, limit)
    requires Denotes(p, value, state) && 0 <= state < limit
    requires p.palette == [] ==> limit <= Pow2(p.bits)
    requires |p.palette| <= Pow2(p.bits)
    ensures Cell(Written(p, index, value), i) == if i == index then state else Cell(p, i)
    ensures CellOk(Written(p, index, value), i, limit)
  {
    hide Entry, WithEntry, EntriesPerLong, ToI32;
    WithEntryFrame(p.longs, p.bits, index, value, i);
    DivUnique(value, Pow2(p.bits), 0, value);
    ToI32Id(state);
    if p.palette != [] {
      NarrowEntry(Written(p, index, value).longs, p.bits, i);
      NarrowEntry(p.longs, p.bits, i);
    }
  }

  // --------------------------------------------------------------- the section, in place

  class ChunkSection {
    var bitsPerEntry: nat
    var palette: seq<int32>
    var single: int32
    var data: seq<int64>

    /** A new uniform section of air: the zero value of the record. */
    constructor ()
      ensures Fields() == AIR_SECTION
    {
      bitsPerEntry, palette, single, data := 0, [], AIR, [];
    }

    constructor Of(p: Packed)
      ensures Fields() == p
    {
      bitsPerEntry, palette, single, data := p.bits, p.palette, p.single, p.longs;
    }

    function Fields(): Packed
      reads this
    {
      Packed(bitsPerEntry, palette, single, data)
    }

    function BlockState(x: int, y: int, z: int): int32
      requires Local(x, y, z)
      reads this
    {
      Cell(Fields(), CellIndex(x, y, z))
    }

    /** Every cell, in index order. */
    method AllCells() returns (cells: seq<int32>)
      ensures cells == Cells(Fields())
    {
      hide Cell;
      cells := [];
      for i := 0 to CELLS
        invariant cells == Cells(Fields())[..i]
      {
        var x, z, y := i % 16, i / 16 % 16, i / 256;
        assert CellIndex(x, y, z) == i;
        cells := cells + [BlockState(x, y, z)];
      }
    }

    /** Rewrites the section as a direct one holding the low 15 bits of the same cells. */
    method ExpandToDirect()
      modifies this
      ensures Fields() == Expanded(old(Fields()))
    {
      hide Entry, WithEntry, PackValues, Cells, ZeroLongs, EntriesPerLong, LongsFor;
      var cells := AllCells();
      bitsPerEntry := DIRECT_BITS;
      palette := [];
      data := ZeroLongs(DIRECT_BITS);
      PackNone(data, DIRECT_BITS, cells);
      for i := 0 to CELLS
        invariant bitsPerEntry == DIRECT_BITS && palette == [] && single == old(single)
        invariant data == PackValues(ZeroLongs(DIRECT_BITS), DIRECT_BITS, cells, i)
      {
        PackNext(ZeroLongs(DIRECT_BITS), DIRECT_BITS, cells, i);
        ZeroEntry(DIRECT_BITS, i);
        PackedEntry(ZeroLongs(DIRECT_BITS), DIRECT_BITS, cells, i, i);
        // Oring into a slot that still reads zero is overwriting it.
        assert Entry(data, DIRECT_BITS, i) == 0;
        data := WithEntry(data, DIRECT_BITS, i, cells[i]);
      }
    }

    /** The first index of the palette entry for a state, or -1. */
    method SearchPalette(state: int32) returns (found: int)
      ensures if state in palette then found == FirstIndex(palette, state) else found == -1
    {
      found := -1;
      for i := 0 to |palette|
        invariant state !in palette[..i]
      {
        if palette[i] == state {
          FirstIsFirst(palette, state, i);
          return i;
        }
      }
    }

    /** Overwrites one cell: the section's part of a block update. A uniform section cannot
        hold two states and is expanded first; a state the palette lacks is appended to it,
        or, when the palette is full, the section is expanded. */
    method Place(index: nat, state: int32)
      requires index < CELLS
      modifies this
      ensures Fields() == Placed(old(Fields()), index, state)
    {
      hide Expanded, Written;
      if bitsPerEntry == 0 || bitsPerEntry > MAX_BITS_PER_ENTRY {
        ExpandToDirect();
      }
      ghost var split := Fields();
      assert split == Splittable(old(Fields()));
      var value: int := state;
      if |palette| > 0 {
        value := PaletteValue(state);
      }
      assert (Fields(), value) == Resolved(split, state);
      WriteValue(index, value);
    }

    /** The packed value for a state in an indirect section, growing the palette or giving
        up on it. */
    method PaletteValue(state: int32) returns (value: int)
      requires 1 <= bitsPerEntry <= MAX_BITS_PER_ENTRY && palette != []
      modifies this
      ensures (Fields(), value) == Resolved(old(Fields()), state)
      ensures 1 <= bitsPerEntry <= MAX_BITS_PER_ENTRY
    {
      value := SearchPalette(state);
      if value < 0 {
        if |palette| < Pow2(bitsPerEntry) {
          palette := palette + [state];
          value := |palette| - 1;
        } else {
          ExpandToDirect();
          value := state;
        }
      }
    }

    method WriteValue(index: nat, value: int)
      requires 1 <= bitsPerEntry <= MAX_BITS_PER_ENTRY
      modifies this
      ensures Fields() == Written(old(Fields()), index, value)
    {
      if index / EntriesPerLong(bitsPerEntry) < |data| {
        data := WithEntry(data, bitsPerEntry, index, value);
      }
    }
  }

  lemma PackNone(longs: seq<int64>, bits: nat, values: seq<int>)
    requires Covers(longs, bits, |values|)
    ensures PackValues(longs, bits, values, 0) == longs
  {
  }

  lemma PackNext(longs: seq<int64>, bits: nat, values: seq<int>, n: nat)
    requires Covers(longs, bits, |values|) && n < |values|
    ensures n / EntriesPerLong(bits) < |longs|
    ensures PackValues(longs, bits, values, n + 1) == WithEntry(PackValues(longs, bits, values, n), bits, n, values[n])
  {
    CoversEntry(longs, bits, |values|, n);
  }

  lemma {:induction false} FirstIsFirst(palette: seq<int32>, state: int32, i: nat)
    requires i < |palette| && palette[i] == state && state !in palette[..i]
    ensures FirstIndex(palette, state) == i
  {
    if i > 0 {
      assert palette[0] == palette[..i][0];
      assert palette[1..][..i - 1] == palette[..i][1..];
      FirstIsFirst(palette[1..], state, i - 1);
    }
  }
}
