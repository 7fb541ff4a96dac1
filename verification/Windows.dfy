/** The client's two views of the player's slots (`internal/inventory`, and the handlers in
`understudy/inventory.go`). A container window ends with the player's own 36 slots under
other numbers; what is filed under the window must reach the inventory too. */
module Windows {
  import opened Words
  import opened Wire
  import opened Shapes
  import opened Slots

  const PLAYER_SLOTS := 36
  const MAIN_START := 9
  const PLAYER_WINDOW := 0
  const NO_WINDOW := -1
  const MAX_WINDOW_SLOTS := 4096
  const NO_POTION := -1

  datatype ItemStack = ItemStack(slot: int, id: int32, count: int32, potion: int32)
  {
    predicate Empty() { count <= 0 }
    function In(i: int): ItemStack { this.(slot := i) }
  }

  type Inv = map<int, ItemStack>

  // --------------------------------------------------------------------- specification

  /** Every stack knows the slot it is in. */
  ghost predicate Numbered(slots: seq<ItemStack>) { forall i | 0 <= i < |slots| :: slots[i].slot == i }

  ghost predicate InvNumbered(inv: Inv) { forall k | k in inv :: inv[k].slot == k && !inv[k].Empty() }

  /** An inventory slot holds a stack under its own number, or is absent when it is empty. */
  ghost predicate Holds(inv: Inv, k: int, item: ItemStack) {
    if item.Empty() then k !in inv else k in inv && inv[k] == item.In(k)
  }

  /** The last 36 slots of the window are slots 9 to 44 of the inventory. */
  ghost predicate Mirrored(slots: seq<ItemStack>, inv: Inv) {
    |slots| > 36 && forall i | |slots| - 36 <= i < |slots| :: Holds(inv, 9 + (i - (|slots| - 36)), slots[i])
  }

  /** Exactly the non-empty stacks of a list, each under its place in it. */
  ghost predicate Lists(inv: Inv, items: seq<ItemStack>) {
    && (forall k :: k in inv <==> 0 <= k < |items| && !items[k].Empty())
    && (forall k | k in inv :: inv[k] == items[k])
  }

  /** The non-empty stacks of a list, each under its own slot number; a later one wins. */
  function Filed(items: seq<ItemStack>): Inv {
    if items == [] then map[]
    else
      var last := items[|items| - 1];
      if last.Empty() then Filed(items[..|items| - 1]) else Filed(items[..|items| - 1])[last.slot := last]
  }

  lemma {:induction false} FiledInPlace(items: seq<ItemStack>)
    requires Numbered(items)
    ensures Lists(Filed(items), items)
    decreases |items|
  {
    if items != [] { FiledInPlace(items[..|items| - 1]); }
  }

  function Put(inv: Inv, k: int, item: ItemStack): Inv { if item.Empty() then inv - {k} else inv[k := item] }

  /** What a window slot means for the inventory, when the window has `own` slots of its own. */
  function Mirror(inv: Inv, own: int, slot: int, item: ItemStack): Inv {
    if own <= 0 || slot < own || slot - own >= PLAYER_SLOTS then inv
    else Put(inv, MAIN_START + (slot - own), item.In(MAIN_START + (slot - own)))
  }

  function MirrorAll(inv: Inv, own: int, items: seq<ItemStack>): Inv {
    if items == [] then inv
    else
      var n := |items| - 1;
      Mirror(MirrorAll(inv, own, items[..n]), own, items[n].slot, items[n])
  }

  function OwnSlots(size: int): int { if size <= PLAYER_SLOTS then 0 else size - PLAYER_SLOTS }

  function Padding(from: nat, to: int): (pad: seq<ItemStack>)
    ensures |pad| == if to > from then to - from else 0
    ensures forall i | 0 <= i < |pad| :: pad[i] == ItemStack(from + i, 0, 0, 0)
    decreases if to > from then to - from else 0
  {
    if to <= from then [] else [ItemStack(from, 0, 0, 0)] + Padding(from + 1, to)
  }

  /** One window slot updated, the view growing to reach it. */
  function SetIn(slots: seq<ItemStack>, slot: int, item: ItemStack): seq<ItemStack> {
    if slot < 0 then slots else (slots + Padding(|slots|, slot + 1))[slot := item.In(slot)]
  }

  /** What a slot of the window is to the inventory, in numbers: with more than 36 slots, the
      last 36 are the inventory's slots 9 to 44, and the others are none of its. */
  lemma MirrorIs(inv: Inv, size: int, slot: int, item: ItemStack)
    requires 0 <= slot < size
    ensures var inv' := Mirror(inv, OwnSlots(size), slot, item);
            if size > 36 && slot >= size - 36 then
              && Holds(inv', slot - (size - 36) + 9, item)
              && forall k | k != slot - (size - 36) + 9 :: (k in inv' <==> k in inv) && (k in inv ==> inv'[k] == inv[k])
            else inv' == inv
  {
  }

  /** One slot set, the others as they were, and numbered empty ones up to it. */
  lemma SetInIs(slots: seq<ItemStack>, slot: int, item: ItemStack)
    ensures var slots' := SetIn(slots, slot, item);
            if slot < 0 then slots' == slots
            else
              && |slots'| == (if slot < |slots| then |slots| else slot + 1)
              && forall i | 0 <= i < |slots'| ::
                   slots'[i] == if i == slot then item.(slot := i) else if i < |slots| then slots[i]
                                else ItemStack(i, 0, 0, 0)
  {
  }

  /** Of the stacks filed under one number, the last is kept. */
  lemma {:induction false} FiledLast(items: seq<ItemStack>, i: nat)
    requires i < |items| && items[i].count > 0
    requires forall j | i < j < |items| :: items[j].count <= 0 || items[j].slot != items[i].slot
    ensures items[i].slot in Filed(items) && Filed(items)[items[i].slot] == items[i]
    decreases |items|
  {
    if i < |items| - 1 { FiledLast(items[..|items| - 1], i); }
  }

  lemma {:induction false} FiledOnly(items: seq<ItemStack>, k: int)
    ensures k in Filed(items) ==> exists i :: 0 <= i < |items| && items[i].count > 0 && items[i].slot == k
    decreases |items|
  {
    if items != [] && k in Filed(items) {
      var n := |items| - 1;
      FiledOnly(items[..n], k);
      if k in Filed(items[..n]) {
        var i :| 0 <= i < n && items[..n][i].count > 0 && items[..n][i].slot == k;
        assert items[i].count > 0 && items[i].slot == k;
      } else {
        assert items[n].count > 0 && items[n].slot == k;
      }
    }
  }

  // ------------------------------------------------------------------------ the theorems

  lemma {:induction false} MirrorAllHolds(inv: Inv, own: int, items: seq<ItemStack>, k: int)
    requires own > 0 && Numbered(items) && |items| <= own + PLAYER_SLOTS
    ensures var slot := k - MAIN_START + own;
            if own <= slot < |items| then Holds(MirrorAll(inv, own, items), k, items[slot])
            else
              && (k in MirrorAll(inv, own, items) <==> k in inv)
              && (k in inv ==> MirrorAll(inv, own, items)[k] == inv[k])
    decreases |items|
  {
    if items != [] {
      MirrorAllHolds(inv, own, items[..|items| - 1], k);
    }
  }

  /** A complete window_items of more than 36 slots brings the two views together, and leaves
      the rest of the inventory alone. */
  lemma SnapshotMirrors(inv: Inv, items: seq<ItemStack>)
    requires Numbered(items) && |items| > 36
    ensures Mirrored(items, MirrorAll(inv, OwnSlots(|items|), items))
    ensures forall k | k < 9 || k >= 45 ::
              (k in MirrorAll(inv, OwnSlots(|items|), items) <==> k in inv) &&
              (k in inv ==> MirrorAll(inv, OwnSlots(|items|), items)[k] == inv[k])
  {
    hide Holds, MirrorAll;
    var own := OwnSlots(|items|);
    forall i | own <= i < |items| ensures Holds(MirrorAll(inv, own, items), MAIN_START + (i - own), items[i]) {
      MirrorAllHolds(inv, own, items, MAIN_START + (i - own));
    }
    forall k | k < MAIN_START || k >= MAIN_START + PLAYER_SLOTS
      ensures (k in MirrorAll(inv, own, items) <==> k in inv) && (k in inv ==> MirrorAll(inv, own, items)[k] == inv[k])
    {
      MirrorAllHolds(inv, own, items, k);
    }
  }

  /** A slot update within the window keeps the views together. */
  lemma UpdateMirrors(slots: seq<ItemStack>, inv: Inv, slot: int, item: ItemStack)
    requires Mirrored(slots, inv) && slot < |slots|
    ensures Mirrored(SetIn(slots, slot, item), Mirror(inv, OwnSlots(|slots|), slot, item))
  {
    var own := OwnSlots(|slots|);
    var slots', inv' := SetIn(slots, slot, item), Mirror(inv, own, slot, item);
    assert |slots'| == |slots|;
    forall i | own <= i < |slots'| ensures Holds(inv', MAIN_START + (i - own), slots'[i]) {
      assert Holds(inv, MAIN_START + (i - own), slots[i]);
    }
  }

  /** The same stack, whatever slot it is filed under; any two empty ones are the same. */
  predicate Alike(a: ItemStack, b: ItemStack) { if a.Empty() then b.Empty() else a == b.In(a.slot) }

  /** Row r of the player's 36, at the end of the window. */
  function Row(slots: seq<ItemStack>, r: nat): ItemStack
    requires r < 36 < |slots|
  {
    slots[|slots| - 36 + r]
  }

  /** The rows repeat themselves `shift` places on, and past the end of them are empty: what a
      window growing by that much, under a mirror that does not move, leaves in place. */
  predicate Repeats(slots: seq<ItemStack>, shift: nat)
    requires PLAYER_SLOTS < |slots|
  {
    forall r | 0 <= r < PLAYER_SLOTS - 1 :: RepeatsAt(slots, r, shift)
  }

  predicate RepeatsAt(slots: seq<ItemStack>, r: nat, shift: nat)
    requires r < PLAYER_SLOTS < |slots|
  {
    if r + shift < PLAYER_SLOTS then Alike(Row(slots, r), Row(slots, r + shift)) else Row(slots, r).Empty()
  }

  /** An update past the end grows the window and moves the player's rows along it, while the
      inventory stays where it was. The views stay together exactly when the rows already
      repeated themselves that far on. */
  lemma GrowthMirrorsIff(slots: seq<ItemStack>, inv: Inv, slot: int, item: ItemStack)
    requires Mirrored(slots, inv) && slot >= |slots|
    ensures Mirrored(SetIn(slots, slot, item), Mirror(inv, OwnSlots(slot + 1), slot, item))
       <==> Repeats(slots, slot + 1 - |slots|)
  {
    var shift := slot + 1 - |slots|;
    var slots', inv' := SetIn(slots, slot, item), Mirror(inv, OwnSlots(slot + 1), slot, item);
    var base, base' := |slots| - PLAYER_SLOTS, |slots'| - PLAYER_SLOTS;
    forall r | 0 <= r < PLAYER_SLOTS
      ensures Holds(inv, MAIN_START + r, Row(slots, r)) && Row(slots', r) == slots'[base' + r]
    {
      assert Holds(inv, MAIN_START + (base + r - base), slots[base + r]);
    }
    forall r | 0 <= r < PLAYER_SLOTS - 1
      ensures Holds(inv', MAIN_START + r, Row(slots', r)) <==> RepeatsAt(slots, r, shift)
    {
      GrownRow(slots, inv, slot, item, r);
    }
    assert Holds(inv', MAIN_START + (PLAYER_SLOTS - 1), Row(slots', PLAYER_SLOTS - 1));
    RowsMirrored(slots', inv');
    hide Holds, RepeatsAt, Mirrored, Row, SetIn, Mirror;
    if Mirrored(slots', inv') {
      forall r | 0 <= r < PLAYER_SLOTS - 1 ensures RepeatsAt(slots, r, shift) {
        assert Holds(inv', MAIN_START + r, Row(slots', r));
      }
    }
    if Repeats(slots, shift) {
      forall r | 0 <= r < PLAYER_SLOTS ensures Holds(inv', MAIN_START + r, Row(slots', r)) {
        assert r < PLAYER_SLOTS - 1 ==> RepeatsAt(slots, r, shift);
      }
    }
  }

  lemma GrownRow(slots: seq<ItemStack>, inv: Inv, slot: int, item: ItemStack, r: nat)
    requires Mirrored(slots, inv) && slot >= |slots| && r < PLAYER_SLOTS - 1
    requires Holds(inv, MAIN_START + r, Row(slots, r))
    ensures var shift := slot + 1 - |slots|;
            var slots', inv' := SetIn(slots, slot, item), Mirror(inv, OwnSlots(slot + 1), slot, item);
            Holds(inv', MAIN_START + r, Row(slots', r)) <==> RepeatsAt(slots, r, shift)
  {
  }

  lemma RowsMirrored(slots: seq<ItemStack>, inv: Inv)
    requires |slots| > PLAYER_SLOTS
    ensures Mirrored(slots, inv) <==> forall r | 0 <= r < PLAYER_SLOTS :: Holds(inv, MAIN_START + r, Row(slots, r))
  {
    hide Holds;
    var base := |slots| - PLAYER_SLOTS;
    if Mirrored(slots, inv) {
      forall r | 0 <= r < PLAYER_SLOTS ensures Holds(inv, MAIN_START + r, Row(slots, r)) {
        assert Holds(inv, MAIN_START + (base + r - base), slots[base + r]);
      }
    }
    if forall r | 0 <= r < PLAYER_SLOTS :: Holds(inv, MAIN_START + r, Row(slots, r)) {
      forall i | base <= i < |slots| ensures Holds(inv, MAIN_START + (i - base), slots[i]) {
        assert Row(slots, i - base) == slots[i];
      }
    }
  }

  /** So the views can part: slot 37 set in a window of 37 whose first player slot is taken
      and whose second is free. */
  lemma GrowthParts(slots: seq<ItemStack>, inv: Inv, item: ItemStack)
    requires |slots| == 37 && Mirrored(slots, inv) && !slots[1].Empty() && slots[2].Empty()
    ensures !Mirrored(SetIn(slots, 37, item), Mirror(inv, OwnSlots(38), 37, item))
  {
    GrowthMirrorsIff(slots, inv, 37, item);
    assert Repeats(slots, 1) ==> RepeatsAt(slots, 0, 1);
    assert Row(slots, 0) == slots[1] && Row(slots, 0 + 1) == slots[2];
  }

  lemma SetInNumbered(slots: seq<ItemStack>, slot: int, item: ItemStack)
    requires Numbered(slots)
    ensures Numbered(SetIn(slots, slot, item))
  {
  }

  // ----------------------------------------------------------------- the container window

  class Container {
    var open: bool
    var id: int32
    var kind: int32
    var slots: seq<ItemStack>
    var declared: int
    var trimmed: bool
    var stateID: int32
    var sequence: nat

    constructor ()
      ensures !open && slots == [] && declared == 0 && sequence == 0
    {
      open, id, kind, slots, declared, trimmed, stateID, sequence := false, NO_WINDOW, 0, [], 0, false, 0, 0;
    }

    method Open(id: int32, kind: int32)
      modifies this
      ensures open && this.id == id && this.kind == kind && slots == [] && declared == 0 && !trimmed
      ensures sequence == old(sequence) + 1 && stateID == old(stateID)
    {
      open, this.id, this.kind := true, id, kind;
      slots, declared, trimmed := [], 0, false;
      sequence := sequence + 1;
    }

    /** The contents are kept: what was there is still worth knowing. */
    method Close()
      modifies this`open, this`id
      ensures !open && id == NO_WINDOW
    {
      open, id := false, NO_WINDOW;
    }

    predicate Matches(window: int32)
      reads this
    {
      open && window == id
    }

    /** The window's shape survives a partial decode: undecoded slots are padded as empty. */
    method ReplaceAll(items: seq<ItemStack>, declared: int, trimmed: bool)
      modifies this`slots, this`declared, this`trimmed
      ensures slots == items + Padding(|items|, declared) && this.declared == declared && this.trimmed == trimmed
      ensures Numbered(items) ==> Numbered(slots)
    {
      slots, this.declared, this.trimmed := items, declared, trimmed;
      if declared > |items| { Grow(declared); } else { assert items + [] == items; }
    }

    method Grow(to: int)
      requires to >= |slots|
      modifies this`slots
      ensures slots == old(slots) + Padding(|old(slots)|, to)
    {
      ghost var was := slots;
      while |slots| < to
        invariant |slots| <= to
        invariant slots + Padding(|slots|, to) == was + Padding(|was|, to)
      {
        slots := slots + [ItemStack(|slots|, 0, 0, 0)];
      }
      assert slots + [] == slots;
    }

    method SetSlot(slot: int, item: ItemStack)
      modifies this`slots
      ensures slots == SetIn(old(slots), slot, item)
      ensures slot < 0 ==> slots == old(slots)
      ensures slot >= 0 ==> |slots| > slot && slots[slot] == item.(slot := slot)
      ensures forall i | 0 <= i < |old(slots)| && i != slot :: i < |slots| && slots[i] == old(slots)[i]
    {
      if slot < 0 { return; }
      if slot >= |slots| { Grow(slot + 1); } else { assert slots + [] == slots; }
      slots := slots[slot := item.In(slot)];
    }

    /** The slot count the server declared, or what it has addressed since. */
    function Size(): (n: int)
      reads this
      ensures n >= |slots| && n >= declared && (n == |slots| || n == declared)
    {
      if declared > |slots| then declared else |slots|
    }

    function Slot(slot: int): Option<ItemStack>
      reads this
    {
      if slot < 0 || slot >= |slots| then None else Some(slots[slot])
    }
  }

  // --------------------------------------------------------------------- the inventory

  class Inventory {
    var slots: Inv
    var stateID: int32
    var truncated: bool

    constructor ()
      ensures slots == map[] && !truncated
    {
      slots, stateID, truncated := map[], 0, false;
    }

    method SetSlot(slot: int, item: ItemStack)
      modifies this`slots
      ensures slots == Put(old(slots), slot, item)
      ensures slots == if item.count <= 0 then old(slots) - {slot} else old(slots)[slot := item]
      ensures InvNumbered(old(slots)) && (item.slot == slot || item.Empty()) ==> InvNumbered(slots)
    {
      if item.Empty() {
        slots := slots - {slot};
        return;
      }
      slots := slots[slot := item];
    }

    /** A whole snapshot in place of what was there. */
    method ReplaceAll(items: seq<ItemStack>, truncated: bool)
      modifies this`slots, this`truncated
      ensures this.truncated == truncated && slots == Filed(items) && InvNumbered(slots)
    {
      slots := map[];
      for i := 0 to |items|
        invariant slots == Filed(items[..i]) && InvNumbered(slots)
      {
        assert items[..i + 1][..i] == items[..i];
        if !items[i].Empty() { slots := slots[items[i].slot := items[i]]; }
      }
      assert items[..|items|] == items;
      this.truncated := truncated;
    }
  }

  // ------------------------------------------------------------------------- lookups

  /** How well a stack matches a name: exactly, loosely, or not at all. */
  datatype Match = Exact | Fuzzy | Neither

  /** The first exact match, or else the first loose one. */
  method Find(items: seq<ItemStack>, match_: ItemStack -> Match) returns (found: Option<nat>)
    ensures found == None <==> forall i | 0 <= i < |items| :: match_(items[i]) == Neither
    ensures found.Some? ==> found.value < |items| && match_(items[found.value]) != Neither
    ensures found.Some? && match_(items[found.value]) == Exact ==>
              forall i | 0 <= i < found.value :: match_(items[i]) != Exact
    ensures found.Some? && match_(items[found.value]) == Fuzzy ==>
              (forall i | 0 <= i < |items| :: match_(items[i]) != Exact)
              && forall i | 0 <= i < found.value :: match_(items[i]) == Neither
  {
    found := None;
    for i := 0 to |items|
      invariant found == None <==> forall j | 0 <= j < i :: match_(items[j]) == Neither
      invariant found.Some? ==> found.value < i && match_(items[found.value]) != Neither
      invariant found.Some? && match_(items[found.value]) == Exact ==>
                  forall j | 0 <= j < found.value :: match_(items[j]) != Exact
      invariant found.Some? && match_(items[found.value]) == Fuzzy ==>
                  (forall j | 0 <= j < i :: match_(items[j]) != Exact)
                  && forall j | 0 <= j < found.value :: match_(items[j]) == Neither
    {
      var m := match_(items[i]);
      if m != Neither {
        if found == None || (m == Exact && match_(items[found.value]) != Exact) { found := Some(i); }
      }
    }
  }

  /** The best match at or above a floor; over a numbered view, the lowest slot there that
      matches as well. */
  method FindFrom(slots: seq<ItemStack>, match_: ItemStack -> Match, floor: int) returns (found: Option<ItemStack>)
    ensures found == None
       <==> forall i | 0 <= i < |slots| && (floor <= 0 || slots[i].slot >= floor) :: match_(slots[i]) == Neither
    ensures found.Some? ==>
              found.value in slots && match_(found.value) != Neither && (floor <= 0 || found.value.slot >= floor)
    ensures found.Some? && match_(found.value) == Fuzzy ==>
              forall i | 0 <= i < |slots| && (floor <= 0 || slots[i].slot >= floor) :: match_(slots[i]) != Exact
    ensures found.Some? && Numbered(slots) ==>
              forall i | 0 <= i < |slots| && i >= floor && match_(slots[i]) == match_(found.value) ::
                i >= found.value.slot
  {
    if floor <= 0 {
      var at := Find(slots, match_);
      return if at == None then None else Some(slots[at.value]);
    }
    var above := [];
    ghost var from := [];
    for i := 0 to |slots|
      invariant |from| == |above|
      invariant forall j | 0 <= j < |from| :: 0 <= from[j] < i && above[j] == slots[from[j]] && above[j].slot >= floor
      invariant forall j, k | 0 <= j < k < |from| :: from[j] < from[k]
      invariant forall j | 0 <= j < i && slots[j].slot >= floor :: j in from
    {
      if slots[i].slot >= floor {
        above, from := above + [slots[i]], from + [i];
      }
    }
    var at := Find(above, match_);
    if at == None {
      forall i | 0 <= i < |slots| && slots[i].slot >= floor ensures match_(slots[i]) == Neither {
        assert i in from;
      }
      return None;
    }
    return Some(above[at.value]);
  }
}
