/** An item stack that is the last field of its packet (`understudy/inventory.go`,
readSlotFinal): its counts are not checked against the bytes, its components are read as far
as they can be, and the potion found by then is kept. */
module FinalSlots {
  import opened Words
  import opened Wire
  import opened Shapes
  import opened ShapeCodec
  import opened ShapeCost
  import Plans
  import opened FieldSkippers
  import opened NestedItems
  import opened Slots

  // --------------------------------------------------------------------- specification

  /** How far a list of components read: the potion found, whether all of them did, what
      follows them then, and the reads made. */
  datatype Effort = Effort(potion: Option<int32>, all: bool, after: Stream, work: nat)

  ghost function BestEffort(v: Version, n: nat, s: Stream, sofar: Option<int32>): Effort
    decreases n
  {
    var wire, t := s.VarInt(), s.AfterVarInt();
    if n == 0 then Effort(sofar, true, s, 0)
    else if t.Broken? then Effort(sofar, false, Broken, 1)
    else
      var s', kept, work := RunComponent(v, wire, 0, t), Keep(v, wire, t, sofar), 1 + ComponentCost(v, wire, 0, t);
      if s'.Broken? then Effort(kept, false, Broken, work)
      else
        var rest := BestEffort(v, n - 1, s', kept);
        rest.(work := work + rest.work)
  }

  /** The components start after the four numbers every stack has. */
  ghost function FinalBody(s: Stream): Stream { SlotCounts(s).AfterVarInt().AfterVarInt() }

  ghost function Tried(v: Version, s: Stream): Effort {
    BestEffort(v, Rounds(SlotCounts(s).VarInt()), FinalBody(s), None)
  }

  ghost function FinalRead(v: Version, s: Stream): Slot {
    if s.AfterVarInt().Broken? then Failed
    else if s.VarInt() <= 0 then Vacant
    else if FinalBody(s).Broken? then Failed
    else Holding(s.AfterVarInt().VarInt(), s.VarInt(), Tried(v, s).potion)
  }

  /** How many removed components a stack claims. */
  ghost function Claimed(s: Stream): nat { Rounds(SlotCounts(s).AfterVarInt().VarInt()) }

  /** A stack that is read at all, beyond an empty slot. */
  ghost predicate HasBody(s: Stream) { s.VarInt() > 0 && FinalBody(s).At? }

  /** The turns of the loop over removed components, which is reached when all the others
      have been read: as many as are claimed. */
  ghost function Turns(v: Version, s: Stream): nat { if HasBody(s) && Tried(v, s).all then Claimed(s) else 0 }

  /** The reads made before the loop over removed components. */
  ghost function WorkBefore(v: Version, s: Stream): nat { 4 + if HasBody(s) then Tried(v, s).work else 0 }

  // ------------------------------------------------------------------------- the reader

  method ReadSlotFinal(v: Version, r: Reader) returns (slot: Slot, ghost turns: nat)
    modifies r
    ensures slot == FinalRead(v, old(r.State()))
    ensures turns == Turns(v, old(r.State()))
    ensures r.steps <= old(r.steps) + WorkBefore(v, old(r.State())) + turns
  {
    hide BestEffort, RunComponents, AfterVarInts, Stream.VarInt, Stream.AfterVarInt;
    ghost var s := r.State();
    FourNumbers(s);
    turns := 0;
    var count := r.VarInt();
    if r.failed { return Failed, 0; }
    if count <= 0 { return Vacant, 0; }
    var id := r.VarInt();
    var added := r.VarInt();
    var removed := r.VarInt();
    if r.failed { return Failed, 0; }
    var potion;
    potion, turns := ReadBestEffort(v, r, Rounds(added), Rounds(removed));
    slot := Holding(id, count, potion);
  }

  lemma FourNumbers(s: Stream)
    ensures s.AfterVarInt().Broken? ==> FinalBody(s).Broken?
  {
  }

  method ReadBestEffort(v: Version, r: Reader, added: nat, removed: nat)
    returns (potion: Option<int32>, ghost turns: nat)
    modifies r
    ensures var tried := BestEffort(v, added, old(r.State()), None);
            && potion == tried.potion
            && turns == (if tried.all then removed else 0)
            && r.steps <= old(r.steps) + tried.work + turns
  {
    hide BestEffort, RunComponent, ComponentCost, PotionAt, CanonicalComponent, Keep, Stream.VarInt, Stream.AfterVarInt;
    ghost var s, steps := r.State(), r.steps;
    potion, turns := None, 0;
    for i := 0 to added
      invariant Trying(BestEffort(v, added, s, None), BestEffort(v, added - i, r.State(), potion), steps, r)
    {
      ghost var here := r.State();
      EffortStep(v, added - i, here, potion);
      var wire := r.VarInt();
      if r.failed { return; }
      var err, found := SkipComponentAt(v, r, wire, 0);
      KeptIs(v, wire, here.AfterVarInt(), potion);
      potion := if found.Some? then found else potion;
      if err { return; }
    }
    NoneToTry(v, r.State(), potion);
    SkipVarInts(r, removed);
    turns := removed;
  }

  /** The rest of the list is what the whole has left. */
  ghost predicate Trying(all: Effort, left: Effort, steps: nat, r: Reader)
    reads r
  {
    all.potion == left.potion && all.all == left.all && r.steps + left.work <= steps + all.work
  }

  lemma EffortStep(v: Version, k: nat, s: Stream, sofar: Option<int32>)
    requires k > 0
    ensures var t := s.AfterVarInt();
            var s', kept := RunComponent(v, s.VarInt(), 0, t), Keep(v, s.VarInt(), t, sofar);
            var cost := ComponentCost(v, s.VarInt(), 0, t);
            BestEffort(v, k, s, sofar) ==
            if t.Broken? then Effort(sofar, false, Broken, 1)
            else if s'.Broken? then Effort(kept, false, Broken, 1 + cost)
            else
              var rest := BestEffort(v, k - 1, s', kept);
              rest.(work := 1 + cost + rest.work)
  {
    hide RunComponent, ComponentCost, Keep;
  }

  lemma NoneToTry(v: Version, s: Stream, sofar: Option<int32>)
    ensures BestEffort(v, 0, s, sofar) == Effort(sofar, true, s, 0)
  {
  }

  lemma KeptIs(v: Version, wire: int32, t: Stream, sofar: Option<int32>)
    ensures Keep(v, wire, t, sofar) ==
            var found := if CanonicalComponent(v, wire) == Some(51) then PotionAt(t) else None;
            if found.Some? then found else sofar
  {
  }

  // -------------------------------------------------------- against the strict reader

  lemma {:induction false} EffortIsLast(v: Version, n: nat, s: Stream, sofar: Option<int32>)
    requires RunComponents(v, n, 0, s).At?
    ensures var tried := BestEffort(v, n, s, sofar); tried.all && tried.potion == LastPotion(v, n, s, sofar)
    decreases n
  {
    hide RunComponent, ComponentCost, Keep, BestEffort, Stream.VarInt, Stream.AfterVarInt;
    if n == 0 {
      NoneToTry(v, s, sofar);
    } else {
      var wire, t := s.VarInt(), s.AfterVarInt();
      var s' := RunComponent(v, wire, 0, t);
      EffortStep(v, n, s, sofar);
      ComponentOnBroken(v, wire, 0);
      ComponentsBroken(v, n - 1, 0);
      EffortIsLast(v, n - 1, s', Keep(v, wire, t, sofar));
    }
  }

  /** Whatever the strict reader reads, this one reads the same; so an update carries any
      item a snapshot can. */
  lemma FinalAgrees(v: Version, s: Stream)
    requires SlotRead(v, s) != Failed
    ensures FinalRead(v, s) == SlotRead(v, s)
  {
    hide RunComponents, AfterVarInts, BestEffort, LastPotion, Stream.VarInt, Stream.AfterVarInt;
    if s.VarInt() > 0 && s.AfterVarInt().At? {
      var c := SlotCounts(s);
      var n, m := ListCount(c), ListCount(AfterCount(c));
      var rest := RunComponents(v, n, 0, SlotComponents(s));
      VarIntsBroken(m);
      ComponentsBroken(v, n, 0);
      CountIs(c);
      CountIs(AfterCount(c));
      EffortIsLast(v, n, SlotComponents(s), None);
    }
  }

  lemma CountIs(s: Stream)
    ensures AfterCount(s).At? ==> AfterCount(s) == s.AfterVarInt() && ListCount(s) == Rounds(s.VarInt())
    ensures s.Broken? ==> AfterCount(s).Broken?
  {
  }

  /** And it reads more: an item with a component it does not know, whatever the bytes from
      there on, keeping the potion of those before it. */
  lemma ReadsUnknown(v: Version, id: int32, count: int32, known: Components, n: int32, removed: int32,
                     wire: int32, more: bytes)
    requires count > 0 && ComponentsFit(v, known, 0) && n > Added(known) && CanonicalComponent(v, wire) == None
    ensures var body := ComponentsBytes(v, known) + (VarIntBytes(wire) + more);
            var counts := VarIntBytes(n) + (VarIntBytes(removed) + body);
            FinalRead(v, At(VarIntBytes(count) + (VarIntBytes(id) + counts)))
            == Holding(id, count, PotionOf(v, known, None))
  {
    hide VarIntBytes, ComponentsBytes, ComponentsFit, BestEffort, PotionOf, Stream.VarInt, Stream.AfterVarInt;
    var body := ComponentsBytes(v, known) + (VarIntBytes(wire) + more);
    var counts := VarIntBytes(n) + (VarIntBytes(removed) + body);
    VarIntAt(count, VarIntBytes(id) + counts);
    VarIntAt(id, counts);
    VarIntAt(n, VarIntBytes(removed) + body);
    VarIntAt(removed, body);
    UpToUnknown(v, known, n, wire, more, None);
  }

  lemma {:induction false} UpToUnknown(v: Version, known: Components, n: nat, wire: int32, more: bytes,
                                       sofar: Option<int32>)
    requires ComponentsFit(v, known, 0) && n > Added(known) && CanonicalComponent(v, wire) == None
    ensures BestEffort(v, n, At(ComponentsBytes(v, known) + (VarIntBytes(wire) + more)), sofar).potion
         == PotionOf(v, known, sofar)
    decreases known
  {
    hide VarIntBytes, Run, Fits, Bytes, WellShaped, ComponentShape, Weight, Stacks, PotionAt, BestEffort, ComponentCost,
      Stream.VarInt, Stream.AfterVarInt;
    var unknown := VarIntBytes(wire) + more;
    var s := At(ComponentsBytes(v, known) + unknown);
    EffortStep(v, n, s, sofar);
    match known
    case CNil =>
      assert ComponentsBytes(v, known) + unknown == unknown;
      VarIntAt(wire, more);
    case CCons(first, payload, rest) =>
      var tail := ComponentsBytes(v, rest) + unknown;
      var kind := CanonicalComponent(v, first).value;
      var t := At(Bytes(v, payload) + tail);
      assert ComponentsBytes(v, known) + unknown == VarIntBytes(first) + (Bytes(v, payload) + tail);
      VarIntAt(first, Bytes(v, payload) + tail);
      ComponentTame(v.enc, kind);
      ShapeRoundTrip(v, ComponentShape(v.enc, kind), payload, 0, tail);
      if kind == 51 { PotionOnWire(v, payload, tail); }
      UpToUnknown(v, rest, n - 1, wire, more, Keep(v, first, t, sofar));
  }

  // ------------------------------------------------------------------------------ work

  /** Up to the removed components, the reads are linear in the bytes. */
  lemma {:induction false} EffortBound(v: Version, n: nat, s: Stream, sofar: Option<int32>)
    ensures Within(BestEffort(v, n, s, sofar).work, s, Rate(0) + MAX_WEIGHT, Fee(0) + MAX_WEIGHT + 1)
    decreases n
  {
    hide RunComponent, ComponentCost, Keep, BestEffort, Stream.VarInt, Stream.AfterVarInt, Rate, Fee;
    var r, fee := Rate(0) + MAX_WEIGHT, Fee(0) + MAX_WEIGHT + 1;
    RateAtLeast(0);
    if n == 0 {
      NoneToTry(v, s, sofar);
      ZeroWithin(s, r, fee);
    } else {
      var wire, t := s.VarInt(), s.AfterVarInt();
      var s' := RunComponent(v, wire, 0, t);
      var cost := ComponentCost(v, wire, 0, t);
      EffortStep(v, n, s, sofar);
      LeavesLess(s);
      ComponentBound(v, wire, 0, t);
      if t.Broken? {
        Dearer(Left(s), 0, r);
      } else if s'.Broken? {
        FirstPaid(2, s, t, r);
        WithinIs(cost, t, r, fee - 1);
        WithinIs(2 + cost, s, r, fee);
      } else {
        ComponentPaid(v, wire, 0, t);
        ComponentConsumes(v, wire, 0, s);
        EffortBound(v, n - 1, s', Keep(v, wire, t, sofar));
        FirstPaid(1 + cost, s, s', r);
      }
    }
  }

  lemma FinalBound(v: Version, s: Stream)
    ensures WorkBefore(v, s) <= SLOT_RATE * Left(s) + SLOT_FEE
  {
    hide BestEffort, Rate, Fee, Left, Stream.VarInt, Stream.AfterVarInt;
    if HasBody(s) {
      BodyShrinks(s);
      EffortBound(v, Rounds(SlotCounts(s).VarInt()), FinalBody(s), None);
      WithinIs(Tried(v, s).work, FinalBody(s), Rate(0) + MAX_WEIGHT, Fee(0) + MAX_WEIGHT + 1);
      Dearer2(Rate(0) + MAX_WEIGHT, Left(FinalBody(s)), Left(s));
    }
    LevelSum(Rate(0), Left(s), 0, 0);
  }

  lemma BodyShrinks(s: Stream)
    ensures Left(FinalBody(s)) <= Left(s)
  {
    LeavesLess(s);
    LeavesLess(s.AfterVarInt());
    LeavesLess(SlotCounts(s));
    LeavesLess(SlotCounts(s).AfterVarInt());
  }

  /** The loop over removed components is not: in at most eight bytes, as many turns as the
      count says. */
  lemma RemovedOfNothing(v: Version, n: int32)
    requires n > 0
    ensures var s := At([1, 0, 0] + VarIntBytes(n));
            && Left(s) <= 8 && Claimed(s) == n && Turns(v, s) == n
            && FinalRead(v, s) == Holding(0, 1, None)
  {
    hide VarIntBytes, BestEffort, Stream.VarInt, Stream.AfterVarInt;
    var tail := VarIntBytes(n);
    SmallNumbers();
    VarIntRoundTrip(n, []);
    assert [1, 0, 0] + tail == [1] + ([0] + ([0] + tail)) && tail == tail + [];
    VarIntAt(1, [0] + ([0] + tail));
    VarIntAt(0, [0] + tail);
    VarIntAt(0, tail);
    VarIntAt(n, []);
    NoneToTry(v, At([]), None);
  }

  lemma SmallNumbers()
    ensures VarIntBytes(0) == [0] && VarIntBytes(1) == [1]
  {
  }

  /** For claims up to n, on any bytes, the turns stay within a fee exactly when the fee pays
      for all of them; and a claim the bytes can hold keeps the whole linear in them. */
  lemma TurnsIff(v: Version, n: int32, fee: nat)
    requires n >= 0
    ensures (forall s | Claimed(s) <= n :: Turns(v, s) <= fee) <==> n <= fee
    ensures forall s | Claimed(s) <= Left(s) ::
              WorkBefore(v, s) + Turns(v, s) <= (SLOT_RATE + 1) * Left(s) + SLOT_FEE
  {
    hide HasBody, Tried, WorkBefore, Claimed, Left, VarIntBytes;
    if n > 0 { RemovedOfNothing(v, n); }
    if forall s | Claimed(s) <= n :: Turns(v, s) <= fee {
      assert n > 0 ==> Turns(v, At([1, 0, 0] + VarIntBytes(n))) <= fee;
    }
    forall s | Claimed(s) <= Left(s)
      ensures WorkBefore(v, s) + Turns(v, s) <= (SLOT_RATE + 1) * Left(s) + SLOT_FEE
    {
      FinalBound(v, s);
      MulAdd(SLOT_RATE, 1, Left(s));
    }
  }
}
