/** Count-first containers that claim more slots than they hold (`skipContainerContents` in
`understudy/components.go`): the loop returns the reader's error when the bytes run out, and
there is none. */
module ShortContainers {
  import opened Words
  import opened Wire
  import opened Shapes
  import opened ShapeCodec
  import opened NestedItems

  lemma {:induction false} ManySplit(v: Version, e: Shape, n: nat, k: nat, d: nat, s: Stream)
    requires d <= COMPONENT_DEPTH && k <= n
    ensures RunMany(v, e, n, d, s) == RunMany(v, e, n - k, d, RunMany(v, e, k, d, s))
    decreases k
  {
    hide Run;
    if k > 0 { ManySplit(v, e, n - 1, k - 1, d, Run(v, e, d, s)); }
  }

  /** A container that claims more slots than its bytes hold, yet not more than their number,
      ends without an error, everything read. */
  lemma ShortContainer(v: Version, slots: Vals, n: nat, d: nat)
    requires d <= COMPONENT_DEPTH && ManyFit(v, Slot, slots, d)
    requires Length(slots) <= n <= |ManyBytes(v, slots)| && n < COUNT_LIMIT
    ensures Run(v, ListOf(Slot), d, At(CountBytes(n) + ManyBytes(v, slots))) == At([])
  {
    hide CountBytes, ManyBytes, ManyFit, RunMany, AfterCount, ListCount;
    var bs := ManyBytes(v, slots);
    CountAt(n, bs);
    ManySplit(v, Slot, n, Length(slots), d, At(bs));
    assert bs == bs + [];
    ManyRoundTrip(v, Slot, slots, d, []);
    SlotsIdle(v, d, n - Length(slots), At([]));
  }

  /** The same bytes decode to the same number of slots. */
  lemma {:induction false} SameSlots(v: Version, xs: Vals, ys: Vals, d: nat)
    requires d <= COMPONENT_DEPTH && ManyFit(v, Slot, xs, d) && ManyFit(v, Slot, ys, d)
    requires ManyBytes(v, xs) == ManyBytes(v, ys)
    ensures Length(xs) == Length(ys)
    decreases xs
  {
    hide Run, Bytes, Fits;
    ManyTakeBytes(v, Slot, xs, d);
    ManyTakeBytes(v, Slot, ys, d);
    if xs.VCons? && ys.VCons? {
      ShapeRoundTrip(v, Slot, xs.head, d, ManyBytes(v, xs.tail));
      ShapeRoundTrip(v, Slot, ys.head, d, ManyBytes(v, ys.tail));
      SameSlots(v, xs.tail, ys.tail, d);
    }
  }

  ghost predicate IsEncoding(v: Version, sh: Shape, d: nat, bs: bytes) {
    exists y: Val :: Fits(v, sh, y, d) && Bytes(v, y) == bs
  }

  /** And it is the encoding of a container only when the claim is true; so a successful skip
      of a container does not prove its bytes well formed. */
  lemma ShortContainerIff(v: Version, slots: Vals, n: nat, d: nat)
    requires d <= COMPONENT_DEPTH && ManyFit(v, Slot, slots, d)
    requires Length(slots) <= n <= |ManyBytes(v, slots)| && n < COUNT_LIMIT
    ensures IsEncoding(v, ListOf(Slot), d, CountBytes(n) + ManyBytes(v, slots)) <==> n == Length(slots)
  {
    hide CountBytes, ManyBytes, ManyFit, AfterCount, ListCount;
    if n == Length(slots) {
      var y := Many(slots);
      assert Fits(v, ListOf(Slot), y, d) && Bytes(v, y) == CountBytes(n) + ManyBytes(v, slots);
    }
    forall y: Val | Fits(v, ListOf(Slot), y, d) && Bytes(v, y) == CountBytes(n) + ManyBytes(v, slots)
      ensures n == Length(slots)
    {
      ManyTakeBytes(v, Slot, y.items, d);
      CountAt(n, ManyBytes(v, slots));
      CountAt(Length(y.items), ManyBytes(v, y.items));
      SameSlots(v, slots, y.items, d);
    }
  }

  /** One stack of four bytes, in a container said to hold four. */
  lemma FourClaimed(v: Version, id: int32, d: nat)
    requires d <= COMPONENT_DEPTH && v.enc.nestedStacksCountFirst && 0 <= id < 128
    ensures Run(v, ListOf(Slot), d, At([4, 1, id, 0, 0])) == At([])
    ensures !IsEncoding(v, ListOf(Slot), d, [4, 1, id, 0, 0])
  {
    var slots := VCons(Held(Item(id, 1, CNil, [])), VNil);
    FourBytes(v, id);
    assert CountBytes(4) == [4];
    assert CountBytes(4) + ManyBytes(v, slots) == [4, 1, id, 0, 0];
    assert ManyFit(v, Slot, VNil, d) && Fits(v, Slot, slots.head, d);
    ShortContainer(v, slots, 4, d);
    ShortContainerIff(v, slots, 4, d);
  }

  lemma FourBytes(v: Version, id: int32)
    requires v.enc.nestedStacksCountFirst && 0 <= id < 128
    ensures ManyBytes(v, VCons(Held(Item(id, 1, CNil, [])), VNil)) == [1, id, 0, 0]
  {
    var item := Item(id, 1, CNil, []);
    assert VarIntBytes(1) == [1] && VarIntBytes(id) == [id] && CountBytes(0) == [0];
    assert ComponentsBytes(v, CNil) == [] && VarIntsBytes([]) == [];
    assert ItemTail(v, item) == [0, 0];
    assert ItemBytes(v, item) == [1, id, 0, 0];
    var slots := VCons(Held(item), VNil);
    assert ManyBytes(v, VNil) == [] && Bytes(v, slots.head) == ItemBytes(v, item);
    assert ManyBytes(v, slots) == Bytes(v, slots.head) + ManyBytes(v, VNil);
  }
}
