/** Item stacks at the top of a packet (`understudy/inventory.go`, readSlot): count first, an
empty slot when it is not positive, otherwise the components at depth zero and the removed
ones. Nothing marks where a slot ends, so one byte off would misread all that follows. */
module Slots {
  import opened Words
  import opened Wire
  import opened Shapes
  import opened ShapeCodec
  import opened ShapeCost
  import Plans
  import opened FieldSkippers
  import opened NestedItems

  datatype Slot = Failed | Vacant | Holding(id: int32, count: int32, potion: Option<int32>)

  // --------------------------------------------------------------------- specification

  /** The potion id of the last of n components to carry one. */
  ghost function LastPotion(v: Version, n: nat, s: Stream, sofar: Option<int32>): Option<int32>
    decreases n
  {
    if n == 0 then sofar
    else
      var wire, t := s.VarInt(), s.AfterVarInt();
      LastPotion(v, n - 1, RunComponent(v, wire, 0, t), Keep(v, wire, t, sofar))
  }

  ghost function Keep(v: Version, wire: int32, t: Stream, sofar: Option<int32>): Option<int32> {
    if CanonicalComponent(v, wire) == Some(51) && PotionAt(t).Some? then PotionAt(t) else sofar
  }

  /** Where the two counts and the components of a non-empty slot start. */
  ghost function SlotCounts(s: Stream): Stream { s.AfterVarInt().AfterVarInt() }

  ghost function SlotComponents(s: Stream): Stream { AfterCount(AfterCount(SlotCounts(s))) }

  ghost function AfterSlot(v: Version, s: Stream): Stream {
    if s.AfterVarInt().Broken? || s.VarInt() <= 0 then s.AfterVarInt()
    else
      AfterVarInts(RunComponents(v, ListCount(SlotCounts(s)), 0, SlotComponents(s)),
                   ListCount(AfterCount(SlotCounts(s))))
  }

  ghost function SlotRead(v: Version, s: Stream): Slot {
    if AfterSlot(v, s).Broken? then Failed
    else if s.VarInt() <= 0 then Vacant
    else Holding(s.AfterVarInt().VarInt(), s.VarInt(), LastPotion(v, ListCount(SlotCounts(s)), SlotComponents(s), None))
  }

  ghost function SlotCost(v: Version, s: Stream): nat {
    4 + ComponentsCost(v, ListCount(SlotCounts(s)), 0, SlotComponents(s)) + ListCount(AfterCount(SlotCounts(s)))
  }

  // ------------------------------------------------------------------------- the reader

  method ReadSlot(v: Version, r: Reader) returns (slot: Slot)
    modifies r
    ensures slot == SlotRead(v, old(r.State()))
    ensures slot != Failed ==> r.State() == AfterSlot(v, old(r.State()))
    ensures r.steps <= old(r.steps) + SLOT_RATE * Left(old(r.State())) + SLOT_FEE
  {
    hide RunComponents, ComponentsCost, AfterVarInts, ListCount, AfterCount, LastPotion, Stream.VarInt,
      Stream.AfterVarInt, Left, Rate, Fee;
    ghost var s := r.State();
    SlotBound(v, s);
    var count := r.VarInt();
    if r.failed { return Failed; }
    if count <= 0 { return Vacant; }
    var id := r.VarInt();
    var added := Plans.ListLen(r);
    var removed := Plans.ListLen(r);
    assert AfterVarInts(RunComponents(v, added, 0, Broken), removed) == Broken by {
      ComponentsBroken(v, added, 0);
      VarIntsBroken(removed);
    }
    if r.failed { return Failed; }
    var err, potion := ReadComponents(v, r, added);
    if err {
      VarIntsBroken(removed);
      return Failed;
    }
    SkipVarInts(r, removed);
    if r.failed { return Failed; }
    slot := Holding(id, count, potion);
  }

  method ReadComponents(v: Version, r: Reader, n: nat) returns (err: bool, potion: Option<int32>)
    modifies r
    ensures Plans.Settled(err, r.State()) == RunComponents(v, n, 0, old(r.State()))
    ensures r.steps <= old(r.steps) + ComponentsCost(v, n, 0, old(r.State()))
    ensures !err ==> potion == LastPotion(v, n, old(r.State()), None)
  {
    hide RunComponents, ComponentsCost, RunComponent, ComponentCost, PotionAt, Stream.VarInt, Stream.AfterVarInt,
      CanonicalComponent;
    ghost var s, steps := r.State(), r.steps;
    potion := None;
    for i := 0 to n
      invariant AmongComponents(v, 0, s, steps, n, n - i, r)
      invariant LastPotion(v, n - i, r.State(), potion) == LastPotion(v, n, s, None)
    {
      ghost var here := r.State();
      ComponentStep(v, n - i, 0, here);
      ComponentOnBroken(v, here.VarInt(), 0);
      var wire := r.VarInt();
      if r.failed { return true, potion; }
      var found;
      err, found := SkipComponentAt(v, r, wire, 0);
      if err { return; }
      potion := if found.Some? then found else potion;
    }
    NoComponents(v, 0, r.State());
    err := false;
  }

  lemma ComponentOnBroken(v: Version, wire: int32, d: nat)
    requires d <= COMPONENT_DEPTH + 1
    ensures RunComponent(v, wire, d, Broken) == Broken
  {
    hide ComponentShape, Run;
    if d <= COMPONENT_DEPTH && CanonicalComponent(v, wire).Some? {
      RunBroken(v, ComponentShape(v.enc, CanonicalComponent(v, wire).value), d);
    }
  }

  // ----------------------------------------------------------------- exact consumption

  /** A slot as the server sends one: an item with a positive count, or a count alone. */
  datatype Sent = NoItem(count: int32) | Stacked(item: Item)

  ghost predicate SentFits(v: Version, sent: Sent) {
    match sent
    case NoItem(count) => count <= 0
    case Stacked(item) => item.count > 0 && CountsFit(item) && ComponentsFit(v, item.added, 0)
  }

  function SentBytes(v: Version, sent: Sent): bytes {
    match sent
    case NoItem(count) => VarIntBytes(count)
    case Stacked(item) => VarIntBytes(item.count) + VarIntBytes(item.id) + ItemTail(v, item)
  }

  /** The potion a component list carries: the last potion_contents that names one. */
  ghost function PotionOf(v: Version, cs: Components, sofar: Option<int32>): Option<int32>
    decreases cs
  {
    match cs
    case CNil => sofar
    case CCons(wire, payload, rest) =>
      if CanonicalComponent(v, wire) == Some(51) && payload.Pair? && payload.fst.Present? && payload.fst.body.Num?
      then PotionOf(v, rest, Some(payload.fst.body.n))
      else PotionOf(v, rest, sofar)
  }

  ghost function SlotOf(v: Version, sent: Sent): Slot {
    match sent
    case NoItem(_) => Vacant
    case Stacked(item) => Holding(item.id, item.count, PotionOf(v, item.added, None))
  }

  /** Reading a slot off its encoding gives the slot back and leaves exactly what follows,
      for every version's encodings and every item nested within the depth bound. */
  lemma SlotRoundTrip(v: Version, sent: Sent, suffix: bytes)
    requires SentFits(v, sent)
    ensures SlotRead(v, At(SentBytes(v, sent) + suffix)) == SlotOf(v, sent)
    ensures AfterSlot(v, At(SentBytes(v, sent) + suffix)) == At(suffix)
  {
    hide VarIntBytes, ItemTail, RunComponents, LastPotion, AfterVarInts, ListCount, AfterCount, ComponentsFit, PotionOf,
      Stream.VarInt, Stream.AfterVarInt;
    match sent
    case NoItem(count) => VarIntAt(count, suffix);
    case Stacked(item) =>
      var tail := ItemTail(v, item) + suffix;
      assert SentBytes(v, sent) + suffix == VarIntBytes(item.count) + (VarIntBytes(item.id) + tail);
      VarIntAt(item.count, VarIntBytes(item.id) + tail);
      VarIntAt(item.id, tail);
      TailRoundTrip(v, item, 0, suffix);
      PotionRoundTrip(v, item.added, VarIntsBytes(item.removed) + suffix, None);
  }

  lemma {:induction false} PotionRoundTrip(v: Version, cs: Components, suffix: bytes, sofar: Option<int32>)
    requires ComponentsFit(v, cs, 0)
    ensures LastPotion(v, Added(cs), At(ComponentsBytes(v, cs) + suffix), sofar) == PotionOf(v, cs, sofar)
    decreases cs
  {
    hide VarIntBytes, Run, Fits, Bytes, WellShaped, ComponentShape, Weight, Stacks, PotionAt, Stream.VarInt,
      Stream.AfterVarInt;
    match cs
    case CNil =>
    case CCons(wire, payload, rest) =>
      var tail := ComponentsBytes(v, rest) + suffix;
      var kind := CanonicalComponent(v, wire).value;
      var t := At(Bytes(v, payload) + tail);
      assert ComponentsBytes(v, cs) + suffix == VarIntBytes(wire) + (Bytes(v, payload) + tail);
      VarIntAt(wire, Bytes(v, payload) + tail);
      ComponentTame(v.enc, kind);
      ShapeRoundTrip(v, ComponentShape(v.enc, kind), payload, 0, tail);
      if kind == 51 { PotionOnWire(v, payload, tail); }
      PotionRoundTrip(v, rest, suffix, Keep(v, wire, t, sofar));
  }

  lemma PotionOnWire(v: Version, payload: Val, tail: bytes)
    requires Fits(v, ComponentShape(v.enc, 51), payload, 0)
    ensures payload.Pair? && (payload.fst.Present? ==> payload.fst.body.Num?)
    ensures PotionAt(At(Bytes(v, payload) + tail)) == if payload.fst.Present? then Some(payload.fst.body.n) else None
  {
    hide VarIntBytes, Stream.VarInt, Stream.Peek, Stream.Skip;
    assert ComponentShape(v.enc, 51) == POTION_CONTENTS;
    var rest := Bytes(v, payload.snd) + tail;
    assert Bytes(v, payload) + tail == Bytes(v, payload.fst) + rest;
    assert Fits(v, Optional(VarInt), payload.fst, 0);
    if payload.fst.Present? {
      assert Fits(v, VarInt, payload.fst.body, 0);
      assert Bytes(v, payload) + tail == [1] + (VarIntBytes(payload.fst.body.n) + rest);
      FlagAt(1, VarIntBytes(payload.fst.body.n) + rest);
      VarIntAt(payload.fst.body.n, rest);
    } else {
      FlagAt(0, rest);
    }
  }

  // ------------------------------------------------------------------- linear decoding

  const SLOT_RATE := Rate(0) + LEVEL_RATE
  const SLOT_FEE := Fee(0) + LEVEL_FEE

  /** On any bytes at all, the reads made are at most a constant for each byte there is. */
  lemma SlotBound(v: Version, s: Stream)
    ensures SlotCost(v, s) <= SLOT_RATE * Left(s) + SLOT_FEE
  {
    hide ComponentsCost, ListCount, AfterCount, Rate, Fee, Left;
    var n, m, s3 := ListCount(SlotCounts(s)), ListCount(AfterCount(SlotCounts(s))), SlotComponents(s);
    ComponentsBound(v, n, 0, s3);
    CountsShrink(s);
    OneLevel(ComponentsCost(v, n, 0, s3), n, m, Left(s3), s, Rate(0), Fee(0));
  }
}
