/** The packets that fill the client's windows (`understudy/inventory.go`): window_items and
set_slot, from their bytes to the two views. */
module WindowPackets {
  import opened Words
  import opened Wire
  import opened Shapes
  import opened Slots
  import opened FinalSlots
  import opened Windows

  // --------------------------------------------------------------------- specification

  /** A slot as it was read, filed under its place in the packet. */
  function Stacked(slot: Slot, i: nat): ItemStack {
    match slot
    case Holding(id, count, potion) => ItemStack(i, id, count, if potion.Some? then potion.value else NO_POTION)
    case _ => ItemStack(i, 0, 0, 0)
  }

  /** In numbers: an item with no potion has potion -1, and an empty slot a count of zero. */
  lemma StackedIs(id: int32, count: int32, potion: Option<int32>, i: nat)
    ensures Stacked(Holding(id, count, potion), i)
         == ItemStack(i, id, count, match potion case None => -1 case Some(p) => p)
    ensures Stacked(Vacant, i).count == 0 && Stacked(Vacant, i).slot == i
  {
  }

  /** The slots that decode, in order, up to the first that does not. */
  ghost function SlotsAt(v: Version, i: nat, n: nat, s: Stream): (items: seq<ItemStack>)
    ensures |items| <= if n > i then n - i else 0
    ensures forall j | 0 <= j < |items| :: items[j].slot == i + j
    decreases if n > i then n - i else 0
  {
    if i >= n then []
    else
      var slot := SlotRead(v, s);
      if slot.Failed? then [] else [Stacked(slot, i)] + SlotsAt(v, i + 1, n, AfterSlot(v, s))
  }

  function SlotsBytes(v: Version, sent: seq<Sent>): bytes {
    if sent == [] then [] else SentBytes(v, sent[0]) + SlotsBytes(v, sent[1..])
  }

  ghost function StackedAll(v: Version, sent: seq<Sent>, i: nat): (items: seq<ItemStack>)
    ensures |items| == |sent|
    decreases sent
  {
    if sent == [] then [] else [Stacked(SlotOf(v, sent[0]), i)] + StackedAll(v, sent[1..], i + 1)
  }

  /** A window's worth of encoded slots all decode, each to itself and in its place. */
  lemma {:induction false} SlotsRoundTrip(v: Version, sent: seq<Sent>, i: nat, suffix: bytes)
    requires forall x | x in sent :: SentFits(v, x)
    ensures SlotsAt(v, i, i + |sent|, At(SlotsBytes(v, sent) + suffix)) == StackedAll(v, sent, i)
    decreases sent
  {
    hide SlotRead, AfterSlot, SentBytes, SlotOf, SentFits;
    if sent != [] {
      assert sent[0] in sent;
      assert SlotsBytes(v, sent) + suffix == SentBytes(v, sent[0]) + (SlotsBytes(v, sent[1..]) + suffix);
      SlotRoundTrip(v, sent[0], SlotsBytes(v, sent[1..]) + suffix);
      SentDecodes(v, sent[0]);
      SlotsRoundTrip(v, sent[1..], i + 1, suffix);
    }
  }

  lemma SentDecodes(v: Version, sent: Sent)
    ensures SlotOf(v, sent) != Failed
  {
  }

  // ------------------------------------------------------------------------ the handlers

  method ReadSlots(v: Version, r: Reader, n: nat) returns (items: seq<ItemStack>, truncated: bool)
    modifies r
    ensures items == SlotsAt(v, 0, n, old(r.State())) && truncated == (|items| < n) && Numbered(items)
  {
    hide SlotRead, AfterSlot;
    ghost var all := SlotsAt(v, 0, n, r.State());
    items := [];
    for i := 0 to n
      invariant |items| == i && all == items + SlotsAt(v, i, n, r.State()) && Numbered(items)
    {
      ghost var s := r.State();
      var slot := ReadSlot(v, r);
      if slot == Failed {
        assert items + [] == items;
        return items, true;
      }
      ReadOn(v, s);
      ghost var one, more := [Stacked(slot, i)], SlotsAt(v, i + 1, n, r.State());
      assert items + (one + more) == (items + one) + more;
      items := items + [Stacked(slot, i)];
    }
    assert items + [] == items;
    truncated := false;
  }

  lemma ReadOn(v: Version, s: Stream)
    ensures SlotRead(v, s).Failed? <==> AfterSlot(v, s).Broken?
  {
    hide AfterSlot;
  }

  /** Files a window slot under the inventory too, when it is one of the player's. */
  method MirrorToInventory(c: Container, inv: Inventory, slot: int, item: ItemStack)
    modifies inv`slots
    ensures inv.slots == Mirror(old(inv.slots), OwnSlots(c.Size()), slot, item)
  {
    var own := OwnSlots(c.Size());
    if own <= 0 || slot < own { return; }
    var row := slot - own;
    if row >= PLAYER_SLOTS { return; }
    var mine := MAIN_START + row;
    inv.SetSlot(mine, item.In(mine));
  }

  method MirrorItems(c: Container, inv: Inventory, items: seq<ItemStack>)
    modifies inv`slots
    ensures inv.slots == MirrorAll(old(inv.slots), OwnSlots(c.Size()), items)
  {
    ghost var was := inv.slots;
    for i := 0 to |items|
      invariant inv.slots == MirrorAll(was, OwnSlots(c.Size()), items[..i])
    {
      assert items[..i + 1][..i] == items[..i];
      MirrorToInventory(c, inv, items[i].slot, items[i]);
    }
    assert items[..|items|] == items;
  }

  /** The state counters a click must echo, and what was cut short. */
  datatype Marks = Marks(container: int32, inventory: int32, trimmed: bool, truncated: bool)

  function Marked(c: Container, inv: Inventory): Marks
    reads c, inv
  {
    Marks(c.stateID, inv.stateID, c.trimmed, inv.truncated)
  }

  /** A window_items packet as read: whose window, its state counter, how many slots it
      claims, and those that decode. */
  datatype Snapshot = Snapshot(window: int32, stateID: int32, n: nat, items: seq<ItemStack>)

  ghost function SnapshotAt(v: Version, packet: bytes): Option<Snapshot> {
    var s1 := At(packet).AfterVarInt();
    var s2 := s1.AfterVarInt();
    var n, body := s2.VarInt(), s2.AfterVarInt();
    if body.Broken? || !(0 <= n <= MAX_WINDOW_SLOTS) then None
    else Some(Snapshot(At(packet).VarInt(), s1.VarInt(), n, SlotsAt(v, 0, n, body)))
  }

  /** A packet as the server encodes it, whatever follows its slots, is the snapshot it
      carries, whole. */
  lemma SnapshotRoundTrip(v: Version, window: int32, stateID: int32, sent: seq<Sent>, suffix: bytes)
    requires |sent| <= 4096 && forall x | x in sent :: SentFits(v, x)
    ensures var rest := VarIntBytes(|sent|) + (SlotsBytes(v, sent) + suffix);
            var packet := VarIntBytes(window) + (VarIntBytes(stateID) + rest);
            SnapshotAt(v, packet) == Some(Snapshot(window, stateID, |sent|, StackedAll(v, sent, 0)))
  {
    hide Stream.VarInt, Stream.AfterVarInt, VarIntBytes, SlotsAt, SlotsBytes, StackedAll, SentFits;
    var body := SlotsBytes(v, sent) + suffix;
    VarIntAt(window, VarIntBytes(stateID) + (VarIntBytes(|sent|) + body));
    VarIntAt(stateID, VarIntBytes(|sent|) + body);
    VarIntAt(|sent|, body);
    SlotsRoundTrip(v, sent, 0, suffix);
  }

  /** A count of slots no window has makes the packet implausible. */
  lemma ImplausibleCount(v: Version, window: int32, stateID: int32, n: int32, rest: bytes)
    requires n < 0 || n > 4096
    ensures SnapshotAt(v, VarIntBytes(window) + (VarIntBytes(stateID) + (VarIntBytes(n) + rest))) == None
  {
    hide Stream.VarInt, Stream.AfterVarInt, VarIntBytes, SlotsAt;
    VarIntAt(window, VarIntBytes(stateID) + (VarIntBytes(n) + rest));
    VarIntAt(stateID, VarIntBytes(n) + rest);
    VarIntAt(n, rest);
  }

  /** Slots, then one that does not read: those before it are what the packet holds. */
  lemma {:induction false} SlotsCutShort(v: Version, sent: seq<Sent>, i: nat, n: nat, rest: bytes)
    requires (forall x | x in sent :: SentFits(v, x)) && n > i + |sent| && SlotRead(v, At(rest)) == Failed
    ensures SlotsAt(v, i, n, At(SlotsBytes(v, sent) + rest)) == StackedAll(v, sent, i)
    decreases sent
  {
    hide SlotRead, AfterSlot, SentBytes, SlotOf, SentFits;
    if sent == [] {
      assert SlotsBytes(v, sent) + rest == rest;
    } else {
      assert sent[0] in sent;
      assert SlotsBytes(v, sent) + rest == SentBytes(v, sent[0]) + (SlotsBytes(v, sent[1..]) + rest);
      SlotRoundTrip(v, sent[0], SlotsBytes(v, sent[1..]) + rest);
      SentDecodes(v, sent[0]);
      SlotsCutShort(v, sent[1..], i + 1, n, rest);
    }
  }

  /** A window_items packet. An implausible one changes nothing; nor does one for a window
      the client is not tracking. */
  method HandleWindowItems(v: Version, c: Container, inv: Inventory, packet: bytes) returns (err: bool)
    modifies c, inv
    ensures err == (SnapshotAt(v, packet) == None)
    ensures match SnapshotAt(v, packet)
            case None => c.slots == old(c.slots) && inv.slots == old(inv.slots) && Marked(c, inv) == old(Marked(c, inv))
            case Some(h) =>
              if old(c.open) && old(c.id) == h.window then
                && c.slots == h.items + Padding(|h.items|, h.n) && c.declared == c.Size() == h.n && Numbered(c.slots)
                && inv.slots == MirrorAll(old(inv.slots), OwnSlots(h.n), h.items)
                && Marked(c, inv) == old(Marked(c, inv)).(container := h.stateID, trimmed := |h.items| < h.n)
              else if h.window == 0 then
                && c.slots == old(c.slots) && Lists(inv.slots, h.items)
                && Marked(c, inv) == old(Marked(c, inv)).(inventory := h.stateID, truncated := |h.items| < h.n)
              else c.slots == old(c.slots) && inv.slots == old(inv.slots) && Marked(c, inv) == old(Marked(c, inv))
    ensures c.open == old(c.open) && c.id == old(c.id) && c.kind == old(c.kind) && c.sequence == old(c.sequence)
  {
    hide Stream.VarInt, Stream.AfterVarInt, SlotsAt, Padding;
    var r := new Reader(packet);
    var window := r.VarInt();
    var stateID := r.VarInt();
    var n := r.VarInt();
    if r.failed || n < 0 || n > MAX_WINDOW_SLOTS { return true; }
    var toContainer := c.Matches(window);
    if toContainer {
      c.stateID := stateID;
    } else if window == PLAYER_WINDOW {
      inv.stateID := stateID;
    } else {
      return false;
    }
    var items, truncated := ReadSlots(v, r, n);
    if toContainer {
      c.ReplaceAll(items, n, truncated);
      MirrorItems(c, inv, items);
    } else {
      inv.ReplaceAll(items, truncated);
      FiledInPlace(items);
    }
    err := false;
  }

  /** A set_slot packet as read: whose window, its state counter, the slot, and the item in
      it, if that decodes. */
  datatype SlotUpdate = SlotUpdate(window: int32, stateID: int32, slot: int, item: Option<ItemStack>)

  function Signed16(u: int): int { if u < 0x8000 then u else u - 0x1_0000 }

  function AsItem(read: Slot, slot: int): Option<ItemStack> {
    if read.Failed? then None else Some(Stacked(read, 0).In(slot))
  }

  ghost function UpdateAt(v: Version, packet: bytes): Option<SlotUpdate> {
    var s1 := At(packet).AfterVarInt();
    var s2 := s1.AfterVarInt();
    var slot := Signed16(s2.Peek(2));
    if s2.Skip(2).Broken? then None
    else Some(SlotUpdate(At(packet).VarInt(), s1.VarInt(), slot, AsItem(FinalRead(v, s2.Skip(2)), slot)))
  }

  /** A set_slot packet as the server encodes it is the update it carries, at any of the
      slot numbers 16 bits hold. */
  lemma UpdateRoundTrip(v: Version, window: int32, stateID: int32, slot: int, sent: Sent, suffix: bytes)
    requires SentFits(v, sent) && -0x8000 <= slot < 0x8000
    ensures var rest := BigEndianBytes(slot % 0x1_0000, 2) + (SentBytes(v, sent) + suffix);
            UpdateAt(v, VarIntBytes(window) + (VarIntBytes(stateID) + rest))
            == Some(SlotUpdate(window, stateID, slot, AsItem(SlotOf(v, sent), slot)))
  {
    hide Stream.VarInt, Stream.AfterVarInt, VarIntBytes, BigEndian, BigEndianBytes, SentBytes, SlotOf, SentFits,
      FinalRead, SlotRead, AfterSlot;
    var body := SentBytes(v, sent) + suffix;
    var number := BigEndianBytes(slot % 0x1_0000, 2);
    VarIntAt(window, VarIntBytes(stateID) + (number + body));
    VarIntAt(stateID, number + body);
    assert Pow256(2) == 0x1_0000;
    BigEndianRoundTrip(slot % 0x1_0000, 2);
    SkipAt(number, body);
    SlotRoundTrip(v, sent, suffix);
    SentDecodes(v, sent);
    FinalAgrees(v, At(body));
  }

  /** One that ends before its slot number is no update. */
  lemma ShortUpdate(v: Version, window: int32, stateID: int32, rest: bytes)
    requires |rest| < 2
    ensures UpdateAt(v, VarIntBytes(window) + (VarIntBytes(stateID) + rest)) == None
  {
    hide Stream.VarInt, Stream.AfterVarInt, VarIntBytes, FinalRead;
    VarIntAt(window, VarIntBytes(stateID) + rest);
    VarIntAt(stateID, rest);
  }

  /** A set_slot packet. The state counter is kept even when the item does not decode. */
  method HandleSetSlot(v: Version, c: Container, inv: Inventory, packet: bytes) returns (err: bool)
    modifies c, inv
    ensures err == (UpdateAt(v, packet) == None)
    ensures match UpdateAt(v, packet)
            case None => c.slots == old(c.slots) && inv.slots == old(inv.slots) && Marked(c, inv) == old(Marked(c, inv))
            case Some(h) =>
              if old(c.open) && old(c.id) == h.window then
                && c.slots == (if h.item.Some? then SetIn(old(c.slots), h.slot, h.item.value) else old(c.slots))
                && inv.slots == (if h.item.Some? then Mirror(old(inv.slots), OwnSlots(c.Size()), h.slot, h.item.value)
                                 else old(inv.slots))
                && Marked(c, inv) == old(Marked(c, inv)).(container := h.stateID)
              else if h.window == 0 then
                && c.slots == old(c.slots)
                && inv.slots == (if h.item.Some? then Put(old(inv.slots), h.slot, h.item.value) else old(inv.slots))
                && Marked(c, inv) == old(Marked(c, inv)).(inventory := h.stateID)
              else c.slots == old(c.slots) && inv.slots == old(inv.slots) && Marked(c, inv) == old(Marked(c, inv))
    ensures c.open == old(c.open) && c.id == old(c.id) && c.declared == old(c.declared)
    ensures c.kind == old(c.kind) && c.sequence == old(c.sequence)
  {
    hide Stream.VarInt, Stream.AfterVarInt, Stream.Skip, Stream.Peek;
    var r := new Reader(packet);
    var window := r.VarInt();
    var stateID := r.VarInt();
    var u := r.Unsigned(2);
    var slot := Signed16(u);
    if r.failed { return true; }
    err := false;
    var toContainer := c.Matches(window);
    if toContainer {
      c.stateID := stateID;
    } else if window == PLAYER_WINDOW {
      inv.stateID := stateID;
    } else {
      return;
    }
    var read, _ := ReadSlotFinal(v, r);
    if read == Failed { return; }
    var item := Stacked(read, 0).In(slot);
    if toContainer {
      c.SetSlot(slot, item);
      MirrorToInventory(c, inv, slot, item);
      return;
    }
    inv.SetSlot(slot, item);
  }

  // ------------------------------------------------------------------------ whole runs

  /** A set_slot packet for this window, and within it. */
  ghost predicate Within(v: Version, packet: bytes, window: int32, n: nat) {
    match UpdateAt(v, packet) case None => false case Some(h) => h.window == window && h.slot < n
  }

  /** A window's slots after its updates, in order. */
  ghost function AfterUpdates(v: Version, slots: seq<ItemStack>, updates: seq<bytes>): seq<ItemStack>
    decreases |updates|
  {
    if updates == [] then slots
    else
      var before := AfterUpdates(v, slots, updates[..|updates| - 1]);
      match UpdateAt(v, updates[|updates| - 1])
      case None => before
      case Some(h) => if h.item.Some? then SetIn(before, h.slot, h.item.value) else before
  }

  /** A complete snapshot of the open window and then any run of updates within it: the two
      views stay one, slot for slot, what the packets say, and every stack knows its place. */
  method WindowRun(v: Version, c: Container, inv: Inventory, packet: bytes, updates: seq<bytes>)
    requires InvNumbered(inv.slots)
    requires match SnapshotAt(v, packet)
             case None => false
             case Some(h) =>
               && c.open && c.id == h.window && |h.items| == h.n > 36
               && forall u | u in updates :: Within(v, u, h.window, h.n)
    modifies c, inv
    ensures Mirrored(c.slots, inv.slots) && Numbered(c.slots) && InvNumbered(inv.slots)
    ensures |c.slots| == SnapshotAt(v, packet).value.n
    ensures c.slots == AfterUpdates(v, SnapshotAt(v, packet).value.items, updates)
  {
    hide SnapshotAt, SlotsAt, Mirrored, MirrorAll, Mirror, SetIn, Numbered, InvNumbered, UpdateAt;
    ghost var h, was := SnapshotAt(v, packet).value, inv.slots;
    ghost var n, items := h.n, h.items;
    var err := HandleWindowItems(v, c, inv, packet);
    SnapshotNumbered(v, packet);
    assert items + [] == items;
    SnapshotMirrors(was, items);
    MirrorAllNumbered(was, OwnSlots(n), items);
    for i := 0 to |updates|
      invariant Mirrored(c.slots, inv.slots) && Numbered(c.slots) && InvNumbered(inv.slots)
      invariant |c.slots| == n && c.declared <= n && c.open && c.id == old(c.id)
      invariant c.slots == AfterUpdates(v, items, updates[..i])
    {
      assert updates[..i + 1][..i] == updates[..i];
      assert updates[i] in updates && Within(v, updates[i], h.window, n);
      ghost var u := UpdateAt(v, updates[i]).value;
      if u.item.Some? {
        UpdateMirrors(c.slots, inv.slots, u.slot, u.item.value);
        SetInNumbered(c.slots, u.slot, u.item.value);
        UpdateFits(c.slots, u.slot, u.item.value);
        MirrorNumbered(inv.slots, OwnSlots(n), u.slot, u.item.value);
      }
      err := HandleSetSlot(v, c, inv, updates[i]);
    }
    assert updates[..|updates|] == updates;
  }

  lemma SnapshotNumbered(v: Version, packet: bytes)
    ensures match SnapshotAt(v, packet) case None => true case Some(h) => Numbered(h.items)
  {
    hide Stream.VarInt, Stream.AfterVarInt;
  }

  lemma UpdateFits(slots: seq<ItemStack>, slot: int, item: ItemStack)
    requires slot < |slots|
    ensures |SetIn(slots, slot, item)| == |slots|
  {
  }

  lemma MirrorNumbered(inv: Inv, own: int, slot: int, item: ItemStack)
    requires InvNumbered(inv)
    ensures InvNumbered(Mirror(inv, own, slot, item))
  {
  }

  lemma {:induction false} MirrorAllNumbered(inv: Inv, own: int, items: seq<ItemStack>)
    requires InvNumbered(inv)
    ensures InvNumbered(MirrorAll(inv, own, items))
    decreases |items|
  {
    if items != [] { MirrorAllNumbered(inv, own, items[..|items| - 1]); }
  }
}
