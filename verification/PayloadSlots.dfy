/** Item slots as a server writes them, from the payloads of their components: read exactly,
nested as deep as the bound and no deeper, and refused where a payload holds what cannot be
stepped over (`understudy/inventory.go`, `understudy/components.go`). */
module PayloadSlots {
  import opened Words
  import opened Wire
  import opened Shapes
  import opened ShapeCodec
  import opened NestedItems
  import opened Slots
  import opened Payloads
  import FinalSlots
  import ShapeCost
  import Refusals
  import Nbt

  // --------------------------------------------------------------------- exact reading

  /** A slot with an item in it: count first, at the top of a packet, in every version. */
  function GearSlotBytes(v: Version, g: Gear): bytes { VarIntBytes(g.count) + (VarIntBytes(g.id) + GearTail(v, g)) }

  ghost predicate GearSlotOk(v: Version, g: Gear) {
    g.count > 0 && Fits31(PartCount(g.parts)) && Fits31(|g.removed|) && PartsOk(v, g.parts, 0)
  }

  /** The potion an item is: the last its parts name. */
  function PotionIn(ps: Parts, sofar: Option<int32>): Option<int32> {
    match ps
    case NoPart => sofar
    case Part(_, payload, rest) => PotionIn(rest, if payload.Potion? && payload.brew.Some? then payload.brew else sofar)
  }

  /** Reading a slot reads exactly its bytes, before anything, and returns what it holds. */
  lemma GearSlotRead(v: Version, g: Gear, rest: bytes)
    requires GearSlotOk(v, g)
    ensures var s := At(GearSlotBytes(v, g) + rest);
            SlotRead(v, s) == Slot.Holding(g.id, g.count, PotionIn(g.parts, None)) && AfterSlot(v, s) == At(rest)
  {
    hide VarIntBytes, GearTail, RunComponents, LastPotion, AfterVarInts, ListCount, AfterCount, PartsOk, PotionIn,
      Stream.VarInt, Stream.AfterVarInt;
    var tail := GearTail(v, g) + rest;
    assert GearSlotBytes(v, g) + rest == VarIntBytes(g.count) + (VarIntBytes(g.id) + tail);
    VarIntAt(g.count, VarIntBytes(g.id) + tail);
    VarIntAt(g.id, tail);
    TailSkips(v, g, 0, rest);
    PartsPotion(v, g.parts, VarIntsBytes(g.removed) + rest, None);
  }

  lemma {:induction false} PartsPotion(v: Version, ps: Parts, rest: bytes, sofar: Option<int32>)
    requires PartsOk(v, ps, 0)
    ensures LastPotion(v, PartCount(ps), At(PartsBytes(v, ps) + rest), sofar) == PotionIn(ps, sofar)
    decreases ps
  {
    hide VarIntBytes, Run, PayloadOk, PayloadOf, PayloadBytes, ComponentShape, CanonicalComponent, PotionAt,
      Stream.VarInt, Stream.AfterVarInt;
    match ps
    case NoPart =>
    case Part(wire, payload, more) =>
      var kind := CanonicalComponent(v, wire).value;
      var tail := PartsBytes(v, more) + rest;
      assert PartsBytes(v, ps) + rest == VarIntBytes(wire) + (PayloadBytes(v, kind, payload) + tail);
      VarIntAt(wire, PayloadBytes(v, kind, payload) + tail);
      PayloadSkips(v, kind, payload, 0);
      SkipsIs(v, ComponentShape(v.enc, kind), 0, PayloadBytes(v, kind, payload), tail);
      assert PayloadOf(v.enc, kind, payload) by { PayloadIs(v, kind, payload); }
      OnlyPotion(v, kind, payload);
      if payload.Potion? { PotionRead(v, payload, tail); }
      PartsPotion(v, more, rest, if payload.Potion? && payload.brew.Some? then payload.brew else sofar);
  }

  lemma PayloadIs(v: Version, kind: int32, p: Payload)
    requires PayloadOk(v, kind, p, 0)
    ensures PayloadOf(v.enc, kind, p)
  {
    hide PayloadOf;
  }

  lemma OnlyPotion(v: Version, kind: int32, p: Payload)
    requires PayloadOf(v.enc, kind, p)
    ensures kind == 51 <==> p.Potion?
  {
  }

  lemma PotionRead(v: Version, p: Payload, tail: bytes)
    requires p.Potion?
    ensures PotionAt(At(PayloadBytes(v, 51, p) + tail)) == p.brew
  {
    hide VarIntBytes, Stream.VarInt, Stream.Peek, Stream.Skip;
    var more := OptRaw(p.colour) + (VarIntBytes(0) + VarIntBytes(0)) + tail;
    assert PayloadBytes(v, 51, p) + tail == OptInt(p.brew) + more;
    if p.brew.Some? {
      assert OptInt(p.brew) + more == [1] + (VarIntBytes(p.brew.value) + more);
      FlagAt(1, VarIntBytes(p.brew.value) + more);
      VarIntAt(p.brew.value, more);
    } else {
      FlagAt(0, more);
    }
  }

  // --------------------------------------------------------------- an unknown component

  /** Parts, and then one this version has no id for, or has no table or no measured encoding
      to read with: the list does not read. */
  lemma {:induction false} UnknownPart(v: Version, known: Parts, wire: int32, n: nat, more: bytes)
    requires PartsOk(v, known, 0) && n > PartCount(known)
    requires v.ids == None || !v.known || wire !in v.ids.value
    ensures RunComponents(v, n, 0, At(PartsBytes(v, known) + (VarIntBytes(wire) + more))) == Broken
    decreases known
  {
    hide VarIntBytes, Run, PayloadOk, PayloadBytes, ComponentShape, Stream.VarInt, Stream.AfterVarInt;
    var unknown := VarIntBytes(wire) + more;
    match known
    case NoPart =>
      assert PartsBytes(v, known) + unknown == unknown;
      VarIntAt(wire, more);
      ComponentsBroken(v, n - 1, 0);
    case Part(first, payload, rest) =>
      var kind := CanonicalComponent(v, first).value;
      var tail := PartsBytes(v, rest) + unknown;
      assert PartsBytes(v, known) + unknown == VarIntBytes(first) + (PayloadBytes(v, kind, payload) + tail);
      VarIntAt(first, PayloadBytes(v, kind, payload) + tail);
      PayloadSkips(v, kind, payload, 0);
      SkipsIs(v, ComponentShape(v.enc, kind), 0, PayloadBytes(v, kind, payload), tail);
      UnknownPart(v, rest, wire, n - 1, more);
  }

  /** So the slot does not. */
  lemma UnknownFails(v: Version, id: int32, count: int32, known: Parts, wire: int32, n: nat, removed: nat, more: bytes)
    requires count > 0 && PartsOk(v, known, 0) && n > PartCount(known) && Fits31(n) && Fits31(removed)
    requires v.ids == None || !v.known || wire !in v.ids.value
    ensures var body := PartsBytes(v, known) + (VarIntBytes(wire) + more);
            SlotRead(v, At(VarIntBytes(count) + (VarIntBytes(id) + (CountBytes(n) + (CountBytes(removed) + body)))))
            == Failed
  {
    hide VarIntBytes, CountBytes, PartsBytes, PartsOk, RunComponents, LastPotion, ListCount, AfterCount, Stream.VarInt,
      Stream.AfterVarInt, AfterVarInts;
    var body := PartsBytes(v, known) + (VarIntBytes(wire) + more);
    var counts := CountBytes(n) + (CountBytes(removed) + body);
    VarIntAt(count, VarIntBytes(id) + counts);
    VarIntAt(id, counts);
    UnknownPart(v, known, wire, n, more);
    CountOrFail(n, CountBytes(removed) + body);
    CountOrFail(removed, body);
    ComponentsBroken(v, n, 0);
    ComponentsBroken(v, 0, 0);
    NothingCounted();
    VarIntsBroken(removed);
    VarIntsBroken(0);
  }

  /** Nor does one that claims fewer components than none, or more than there are bytes. */
  lemma ImplausibleCounts(v: Version, id: int32, count: int32, n: int32, removed: int32, body: bytes)
    requires count > 0
    requires n < 0 || n > |VarIntBytes(removed) + body| || removed < 0 || removed > |body|
    ensures SlotRead(v, At(VarIntBytes(count) + (VarIntBytes(id) + (VarIntBytes(n) + (VarIntBytes(removed) + body)))))
         == Failed
  {
    hide VarIntBytes, RunComponents, LastPotion, Stream.VarInt, Stream.AfterVarInt, AfterVarInts;
    var counts := VarIntBytes(n) + (VarIntBytes(removed) + body);
    VarIntAt(count, VarIntBytes(id) + counts);
    VarIntAt(id, counts);
    VarIntAt(n, VarIntBytes(removed) + body);
    VarIntAt(removed, body);
    var s := SlotCounts(At(VarIntBytes(count) + (VarIntBytes(id) + counts)));
    ComponentsBroken(v, ListCount(s), 0);
    NothingCounted();
    VarIntsBroken(ListCount(AfterCount(s)));
  }

  /** A count is read, when the bytes can hold it, or fails the reader. */
  lemma CountOrFail(n: nat, rest: bytes)
    requires Fits31(n)
    ensures var s := At(CountBytes(n) + rest);
            if n <= |rest| then ListCount(s) == n && AfterCount(s) == At(rest)
            else ListCount(s) == 0 && AfterCount(s) == Broken
  {
    CountIsVarInt(n);
    VarIntAt(n, rest);
  }

  lemma NothingCounted()
    ensures ListCount(Broken) == 0 && AfterCount(Broken) == Broken
  {
  }

  // ------------------------------------------------------------------ nested too deep

  /** Items held one inside another, n deep. */
  function Tower(wire: int32, n: nat): Parts
  {
    if n == 0 then NoPart else Part(wire, Payload.Held(Gear(1, 1, Tower(wire, n - 1), [])), NoPart)
  }

  /** Past the sixteenth level below the top a component is refused, whatever it is. */
  lemma {:induction false} TowerRefused(v: Version, wire: int32, n: nat, d: nat, rest: bytes)
    requires d <= 17 && n > 0 && d + n > 17 && CanonicalComponent(v, wire) == Some(25)
    ensures RunComponents(v, 1, d, At(PartsBytes(v, Tower(wire, n)) + rest)) == Broken
    decreases n, 0
  {
    hide VarIntBytes, GearBytes, RunStack, CanonicalComponent, PartsBytes, Stream.VarInt, Stream.AfterVarInt;
    var gear := GearBytes(v, Gear(1, 1, Tower(wire, n - 1), []));
    TowerBytes(v, wire, n);
    assert PartsBytes(v, Tower(wire, n)) + rest == VarIntBytes(wire) + (gear + rest);
    VarIntAt(wire, gear + rest);
    OneComponent(v, wire, d, At(gear + rest));
    if d <= 16 { HeldTower(v, wire, n - 1, d, rest); }
  }

  lemma TowerBytes(v: Version, wire: int32, n: nat)
    requires n > 0 && CanonicalComponent(v, wire) == Some(25)
    ensures PartsBytes(v, Tower(wire, n)) == VarIntBytes(wire) + GearBytes(v, Gear(1, 1, Tower(wire, n - 1), []))
  {
    hide VarIntBytes, GearBytes, CanonicalComponent;
    var held := Payload.Held(Gear(1, 1, Tower(wire, n - 1), []));
    assert Tower(wire, n) == Part(wire, held, NoPart) && PartsBytes(v, NoPart) == [];
    assert PartBytes(v, wire, held) == PayloadBytes(v, 25, held);
  }

  lemma OneComponent(v: Version, wire: int32, d: nat, t: Stream)
    requires d <= 17 && CanonicalComponent(v, wire) == Some(25)
    ensures RunComponent(v, wire, d, t) == if d <= 16 then RunStack(v, d, t) else Broken
    ensures RunComponents(v, 0, d, t) == t
  {
    hide RunStack, CanonicalComponent;
    assert ComponentShape(v.enc, 25) == Stack;
  }

  lemma {:induction false} HeldTower(v: Version, wire: int32, n: nat, d: nat, rest: bytes)
    requires d <= 16 && n > 0 && d + 1 + n > 17 && CanonicalComponent(v, wire) == Some(25)
    ensures RunStack(v, d, At(GearBytes(v, Gear(1, 1, Tower(wire, n), [])) + rest)) == Broken
    decreases n, 1
  {
    hide VarIntBytes, CountBytes, PartsBytes, RunComponents, ListCount, AfterCount, CanonicalComponent, Stream.VarInt,
      Stream.AfterVarInt;
    var g := Gear(1, 1, Tower(wire, n), []);
    var parts := PartsBytes(v, g.parts) + (VarIntsBytes([]) + rest);
    var counts := CountBytes(1) + (CountBytes(0) + parts);
    assert PartCount(g.parts) == 1 by { assert Tower(wire, n).rest == NoPart; }
    assert GearBytes(v, g) + rest == VarIntBytes(1) + (VarIntBytes(1) + counts);
    VarIntAt(1, VarIntBytes(1) + counts);
    VarIntAt(1, counts);
    PartsThere(v, g.parts);
    CountAt(1, CountBytes(0) + parts);
    CountAt(0, parts);
    assert AfterVarInts(Broken, 0) == Broken;
    TowerRefused(v, wire, n, d + 1, VarIntsBytes([]) + rest);
  }

  /** So seventeen levels of items below an item do not read, and sixteen do. */
  lemma SeventeenLevels(v: Version, wire: int32, rest: bytes)
    requires CanonicalComponent(v, wire) == Some(25)
    ensures SlotRead(v, At(GearSlotBytes(v, Gear(1, 1, Tower(wire, 18), [])) + rest)) == Failed
    ensures SlotRead(v, At(GearSlotBytes(v, Gear(1, 1, Tower(wire, 17), [])) + rest)) == Slot.Holding(1, 1, None)
  {
    TowerFails(v, wire, 18, rest);
    TowerOk(v, wire, 17, 0);
    TowerBrewless(wire, 17);
    GearSlotRead(v, Gear(1, 1, Tower(wire, 17), []), rest);
  }

  lemma {:induction false} TowerOk(v: Version, wire: int32, n: nat, d: nat)
    requires d + n <= 17 && CanonicalComponent(v, wire) == Some(25)
    ensures PartsOk(v, Tower(wire, n), d) && PartCount(Tower(wire, n)) <= 1
    decreases n
  {
    if n > 0 { TowerOk(v, wire, n - 1, d + 1); }
  }

  lemma TowerBrewless(wire: int32, n: nat)
    ensures PotionIn(Tower(wire, n), None) == None
  {
  }

  lemma TowerFails(v: Version, wire: int32, n: nat, rest: bytes)
    requires n > 17 && CanonicalComponent(v, wire) == Some(25)
    ensures SlotRead(v, At(GearSlotBytes(v, Gear(1, 1, Tower(wire, n), [])) + rest)) == Failed
  {
    hide VarIntBytes, CountBytes, PartsBytes, RunComponents, ListCount, AfterCount, CanonicalComponent, Stream.VarInt,
      Stream.AfterVarInt;
    var g := Gear(1, 1, Tower(wire, n), []);
    var parts := PartsBytes(v, g.parts) + (VarIntsBytes([]) + rest);
    var counts := CountBytes(1) + (CountBytes(0) + parts);
    assert PartCount(g.parts) == 1 by { assert Tower(wire, n).rest == NoPart; }
    assert GearSlotBytes(v, g) + rest == VarIntBytes(1) + (VarIntBytes(1) + counts);
    VarIntAt(1, VarIntBytes(1) + counts);
    VarIntAt(1, counts);
    PartsThere(v, g.parts);
    CountAt(1, CountBytes(0) + parts);
    CountAt(0, parts);
    assert AfterVarInts(Broken, 0) == Broken;
    TowerRefused(v, wire, n, 0, VarIntsBytes([]) + rest);
  }

  // ------------------------------------------------------------- as far as they read

  /** Reading an item's parts as far as they go takes up what follows with the potion they
      name. */
  lemma {:induction false} UpToParts(v: Version, known: Parts, n: nat, more: bytes, sofar: Option<int32>)
    requires PartsOk(v, known, 0) && n >= PartCount(known)
    ensures FinalSlots.BestEffort(v, n, At(PartsBytes(v, known) + more), sofar).potion
         == FinalSlots.BestEffort(v, n - PartCount(known), At(more), PotionIn(known, sofar)).potion
    decreases known
  {
    hide VarIntBytes, Run, PayloadOk, PayloadOf, PayloadBytes, ComponentShape, CanonicalComponent, PotionAt,
      ShapeCost.ComponentCost, FinalSlots.BestEffort, Stream.VarInt, Stream.AfterVarInt;
    match known
    case NoPart => assert PartsBytes(v, known) + more == more;
    case Part(wire, payload, rest) =>
      var kind := CanonicalComponent(v, wire).value;
      var tail := PartsBytes(v, rest) + more;
      var found := if payload.Potion? && payload.brew.Some? then payload.brew else sofar;
      assert PartsBytes(v, known) + more == VarIntBytes(wire) + (PayloadBytes(v, kind, payload) + tail);
      FinalSlots.EffortStep(v, n, At(PartsBytes(v, known) + more), sofar);
      VarIntAt(wire, PayloadBytes(v, kind, payload) + tail);
      PayloadSkips(v, kind, payload, 0);
      SkipsIs(v, ComponentShape(v.enc, kind), 0, PayloadBytes(v, kind, payload), tail);
      assert PayloadOf(v.enc, kind, payload) by { PayloadIs(v, kind, payload); }
      OnlyPotion(v, kind, payload);
      FinalSlots.KeptIs(v, wire, At(PayloadBytes(v, kind, payload) + tail), sofar);
      if payload.Potion? { PotionRead(v, payload, tail); }
      UpToParts(v, rest, n - 1, more, found);
  }

  /** The stack at the end of a packet, down to where its components start. */
  lemma FinalCounts(v: Version, id: int32, count: int32, n: int32, removed: int32, body: bytes)
    requires count > 0
    ensures var s := At(VarIntBytes(count) + (VarIntBytes(id) + (VarIntBytes(n) + (VarIntBytes(removed) + body))));
            FinalSlots.FinalRead(v, s)
            == Slot.Holding(id, count, FinalSlots.BestEffort(v, Rounds(n), At(body), None).potion)
  {
    hide VarIntBytes, FinalSlots.BestEffort, Stream.VarInt, Stream.AfterVarInt;
    var counts := VarIntBytes(n) + (VarIntBytes(removed) + body);
    VarIntAt(count, VarIntBytes(id) + counts);
    VarIntAt(id, counts);
    VarIntAt(n, VarIntBytes(removed) + body);
    VarIntAt(removed, body);
  }

  /** A potion whose effects cannot be stepped over is still the potion the item is, at the
      end of a packet. */
  lemma KeepsRefusedPotion(v: Version, id: int32, count: int32, known: Parts, n: int32, removed: int32,
                           wire: int32, brew: int32, colour: Option<bytes>, a: int32, b: int32, more: bytes)
    requires count > 0 && PartsOk(v, known, 0) && n > PartCount(known)
    requires CanonicalComponent(v, wire) == Some(51) && OptSized(colour, 4) && (a != 0 || b != 0)
    ensures var potion := OptInt(Some(brew)) + (OptRaw(colour) + (VarIntBytes(a) + VarIntBytes(b)));
            var body := PartsBytes(v, known) + (VarIntBytes(wire) + (potion + more));
            FinalSlots.FinalRead(v, At(VarIntBytes(count) + (VarIntBytes(id)
                                       + (VarIntBytes(n) + (VarIntBytes(removed) + body)))))
            == Slot.Holding(id, count, Some(brew))
  {
    hide VarIntBytes, Run, PartsOk, PartsBytes, ComponentShape, CanonicalComponent, PotionAt,
      ShapeCost.ComponentCost, PotionIn, OptInt, OptRaw, FinalSlots.BestEffort, FinalSlots.FinalRead, Stream.VarInt,
      Stream.AfterVarInt;
    var potion := OptInt(Some(brew)) + (OptRaw(colour) + (VarIntBytes(a) + VarIntBytes(b)));
    var rest := VarIntBytes(wire) + (potion + more);
    var sofar := PotionIn(known, None);
    FinalCounts(v, id, count, n, removed, PartsBytes(v, known) + rest);
    UpToParts(v, known, n, rest, None);
    FinalSlots.EffortStep(v, n - PartCount(known), At(rest), sofar);
    VarIntAt(wire, potion + more);
    Refusals.PotionRefused(v, 0, Some(brew), colour, a, b);
    assert Run(v, ComponentShape(v.enc, 51), 0, At(potion + more)) == Broken;
    FinalSlots.KeptIs(v, wire, At(potion + more), sofar);
    BrewFirst(brew, OptRaw(colour) + (VarIntBytes(a) + VarIntBytes(b)), more);
  }

  lemma BrewFirst(brew: int32, rest: bytes, more: bytes)
    ensures PotionAt(At(OptInt(Some(brew)) + rest + more)) == Some(brew)
  {
    hide VarIntBytes, Stream.VarInt, Stream.Peek, Stream.Skip;
    assert OptInt(Some(brew)) + rest + more == [1] + (VarIntBytes(brew) + (rest + more));
    FlagAt(1, VarIntBytes(brew) + (rest + more));
    VarIntAt(brew, rest + more);
  }

  /** A component the client does not know ends the reading, and the potion is the one named
      before it. */
  lemma KeepsUpToUnknown(v: Version, id: int32, count: int32, known: Parts, n: int32, removed: int32,
                         wire: int32, more: bytes)
    requires count > 0 && PartsOk(v, known, 0) && n > PartCount(known)
    requires v.ids == None || !v.known || wire !in v.ids.value
    ensures var body := PartsBytes(v, known) + (VarIntBytes(wire) + more);
            FinalSlots.FinalRead(v, At(VarIntBytes(count) + (VarIntBytes(id)
                                       + (VarIntBytes(n) + (VarIntBytes(removed) + body)))))
            == Slot.Holding(id, count, PotionIn(known, None))
  {
    hide VarIntBytes, Run, PartsOk, PartsBytes, ComponentShape, PotionAt, ShapeCost.ComponentCost, PotionIn,
      FinalSlots.BestEffort, FinalSlots.FinalRead, Stream.VarInt, Stream.AfterVarInt;
    var rest := VarIntBytes(wire) + more;
    FinalCounts(v, id, count, n, removed, PartsBytes(v, known) + rest);
    UpToParts(v, known, n, rest, None);
    FinalSlots.EffortStep(v, n - PartCount(known), At(rest), PotionIn(known, None));
    VarIntAt(wire, more);
  }
}
