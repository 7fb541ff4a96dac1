/** The encoder side of the shapes: trees of values, the bytes a server writes for them,
and the theorem that running a shape over those bytes consumes exactly them. */
module ShapeCodec {
  import opened Words
  import opened Wire
  import opened Shapes
  import Nbt

  datatype Val =
    | Unit
    | Num(n: int32)
    | Raw(bs: bytes)
    | Str(text: bytes)
    | Nbt_(root: Option<Nbt.Tree>)
    | TagNamed(name: bytes)
    | Ids(ids: seq<int32>)
    | Pair(fst: Val, snd: Val)
    | Absent
    | Present(body: Val)
    | Chosen(n: int32, body: Val)
    | Many(items: Vals)
    | Held(stack: Item)
    | EmptySlot

  datatype Vals = VNil | VCons(head: Val, tail: Vals)

  /** An item stack: what it is, and the components added to and removed from it. */
  datatype Item = Item(id: int32, count: int32, added: Components, removed: seq<int32>)

  datatype Components = CNil | CCons(wire: int32, payload: Val, rest: Components)

  const COUNT_LIMIT := 0x8000_0000

  function Length(xs: Vals): nat { match xs case VNil => 0 case VCons(_, tail) => 1 + Length(tail) }

  function Added(cs: Components): nat { match cs case CNil => 0 case CCons(_, _, rest) => 1 + Added(rest) }

  // ------------------------------------------------------------------ values of a shape

  /** Shapes whose every value takes at least one byte. */
  predicate NonEmpty(sh: Shape) {
    match sh
    case Empty => false
    case Reject => true
    case Fixed(n) => n > 0
    case Seq(a, b) => NonEmpty(a) || NonEmpty(b)
    case _ => true
  }

  /** Fixed fields have a width, and lists hold only elements that take a byte, which is what
      makes a count checkable. */
  predicate WellShaped(sh: Shape) {
    match sh
    case Fixed(n) => n > 0
    case Seq(a, b) => WellShaped(a) && WellShaped(b)
    case Optional(b) => WellShaped(b)
    case Case(_, a, b) => WellShaped(a) && WellShaped(b)
    case ListOf(e) => NonEmpty(e) && WellShaped(e)
    case _ => true
  }

  /** x is a value of the shape, nested no deeper than the bound from depth d. */
  ghost predicate Fits(v: Version, sh: Shape, x: Val, d: nat)
    decreases x
  {
    match sh
    case Empty => x == Unit
    case Reject => false
    case VarInt => x.Num?
    case Fixed(n) => x.Raw? && |x.bs| == n
    case Text => x.Str? && |x.text| <= MAX_STRING_LEN
    case Tag => x.Nbt_? && Nbt.RootFits(x.root)
    case IdSet => (x.TagNamed? && |x.name| <= MAX_STRING_LEN) || (x.Ids? && |x.ids| + 1 < COUNT_LIMIT)
    case Seq(a, b) => x.Pair? && Fits(v, a, x.fst, d) && Fits(v, b, x.snd, d)
    case Optional(b) => x.Absent? || (x.Present? && Fits(v, b, x.body, d))
    case Case(k, a, b) => x.Chosen? && Fits(v, if x.n == k then a else b, x.body, d)
    case ListOf(e) => x.Many? && Length(x.items) < COUNT_LIMIT && ManyFit(v, e, x.items, d)
    case Stack => x.Held? && ItemFits(v, x.stack, d)
    case Slot =>
      || x.EmptySlot?
      || (x.Held? && v.enc.nestedStacksCountFirst && x.stack.count != 0 && ItemFits(v, x.stack, d))
  }

  ghost predicate ManyFit(v: Version, e: Shape, xs: Vals, d: nat)
    decreases xs
  {
    match xs
    case VNil => true
    case VCons(head, tail) => Fits(v, e, head, d) && ManyFit(v, e, tail, d)
  }

  ghost predicate ItemFits(v: Version, item: Item, d: nat)
    decreases item
  {
    CountsFit(item) && ComponentsFit(v, item.added, d + 1)
  }

  predicate CountsFit(item: Item) { Added(item.added) < COUNT_LIMIT && |item.removed| < COUNT_LIMIT }

  ghost predicate ComponentsFit(v: Version, cs: Components, d: nat)
    decreases cs
  {
    match cs
    case CNil => true
    case CCons(wire, payload, rest) =>
      && d <= COMPONENT_DEPTH && CanonicalComponent(v, wire).Some?
      && Fits(v, ComponentShape(v.enc, CanonicalComponent(v, wire).value), payload, d)
      && ComponentsFit(v, rest, d)
  }

  // ------------------------------------------------------------------------ their bytes

  function CountBytes(n: nat): bytes { VarBytes(n % WORD32) }

  function TextBytes(text: bytes): bytes { CountBytes(|text|) + text }

  function Bytes(v: Version, x: Val): bytes
    decreases x
  {
    match x
    case Unit => []
    case Num(n) => VarIntBytes(n)
    case Raw(bs) => bs
    case Str(text) => TextBytes(text)
    case Nbt_(root) => Nbt.RootBytes(root)
    case TagNamed(name) => VarIntBytes(0) + TextBytes(name)
    case Ids(ids) => CountBytes(|ids| + 1) + VarIntsBytes(ids)
    case Pair(a, b) => Bytes(v, a) + Bytes(v, b)
    case Absent => [0]
    case Present(b) => [1] + Bytes(v, b)
    case Chosen(n, b) => VarIntBytes(n) + Bytes(v, b)
    case Many(xs) => CountBytes(Length(xs)) + ManyBytes(v, xs)
    case Held(item) => ItemBytes(v, item)
    case EmptySlot => [0]
  }

  function ManyBytes(v: Version, xs: Vals): bytes
    decreases xs
  {
    match xs
    case VNil => []
    case VCons(head, tail) => Bytes(v, head) + ManyBytes(v, tail)
  }

  /** A nested stack: which of id and count leads depends on the version. */
  function ItemBytes(v: Version, item: Item): bytes
    decreases item
  {
    (if v.enc.nestedStacksCountFirst then VarIntBytes(item.count) + VarIntBytes(item.id)
     else VarIntBytes(item.id) + VarIntBytes(item.count)) +
    ItemTail(v, item)
  }

  function ItemTail(v: Version, item: Item): bytes
    decreases item, 0
  {
    CountBytes(Added(item.added)) +
    (CountBytes(|item.removed|) + (ComponentsBytes(v, item.added) + VarIntsBytes(item.removed)))
  }

  function ComponentsBytes(v: Version, cs: Components): bytes
    decreases cs
  {
    match cs
    case CNil => []
    case CCons(wire, payload, rest) => VarIntBytes(wire) + Bytes(v, payload) + ComponentsBytes(v, rest)
  }

  // ------------------------------------------------------- counts the bytes can hold

  lemma CountAt(n: nat, rest: bytes)
    requires n < COUNT_LIMIT && n <= |rest|
    ensures ListCount(At(CountBytes(n) + rest)) == n && AfterCount(At(CountBytes(n) + rest)) == At(rest)
  {
    VarIntAt(n, rest);
  }

  lemma TextAt(text: bytes, suffix: bytes)
    requires |text| <= MAX_STRING_LEN
    ensures At(TextBytes(text) + suffix).AfterString() == At(suffix)
  {
    StringAt(text, suffix);
  }

  lemma IdSetAt(x: Val, suffix: bytes)
    requires (x.TagNamed? && |x.name| <= MAX_STRING_LEN) || (x.Ids? && |x.ids| + 1 < COUNT_LIMIT)
    ensures var bs := if x.TagNamed? then VarIntBytes(0) + TextBytes(x.name)
                      else CountBytes(|x.ids| + 1) + VarIntsBytes(x.ids);
            AfterIdSet(At(bs + suffix)) == At(suffix)
  {
    hide VarIntBytes, TextBytes;
    match x
    case TagNamed(name) =>
      assert VarIntBytes(0) + TextBytes(name) + suffix == VarIntBytes(0) + (TextBytes(name) + suffix);
      VarIntAt(0, TextBytes(name) + suffix);
      TextAt(name, suffix);
    case Ids(ids) =>
      var rest := VarIntsBytes(ids) + suffix;
      assert CountBytes(|ids| + 1) + VarIntsBytes(ids) + suffix == CountBytes(|ids| + 1) + rest;
      assert CountBytes(|ids| + 1) == VarIntBytes(|ids| + 1) by { CountIsVarInt(|ids| + 1); }
      VarIntAt(|ids| + 1, rest);
      VarIntsSkipped(ids, suffix);
  }

  lemma CountIsVarInt(n: nat)
    requires n < COUNT_LIMIT
    ensures CountBytes(n) == VarIntBytes(n)
  {
  }

  lemma {:induction false} TakesAByte(v: Version, sh: Shape, x: Val, d: nat)
    requires NonEmpty(sh) && Fits(v, sh, x, d)
    ensures |Bytes(v, x)| >= 1
    decreases x
  {
    match sh
    case Seq(a, b) => if NonEmpty(a) { TakesAByte(v, a, x.fst, d); } else { TakesAByte(v, b, x.snd, d); }
    case _ =>
  }

  lemma {:induction false} ManyTakeBytes(v: Version, e: Shape, xs: Vals, d: nat)
    requires NonEmpty(e) && ManyFit(v, e, xs, d)
    ensures |ManyBytes(v, xs)| >= Length(xs)
    decreases xs
  {
    match xs
    case VNil =>
    case VCons(head, tail) =>
      TakesAByte(v, e, head, d);
      ManyTakeBytes(v, e, tail, d);
  }

  lemma {:induction false} ComponentsTakeBytes(v: Version, cs: Components)
    ensures |ComponentsBytes(v, cs)| >= Added(cs)
    decreases cs
  {
    match cs
    case CNil =>
    case CCons(wire, payload, rest) => ComponentsTakeBytes(v, rest);
  }

  // ------------------------------------------------------- what the table's shapes share

  /** A shape's size, an element of a list counting twice. */
  function Weight(sh: Shape): nat {
    match sh
    case Empty => 0
    case Reject => 0
    case VarInt => 1
    case Fixed(_) => 1
    case Text => 2
    case Tag => 3
    case IdSet => 3
    case Seq(a, b) => Weight(a) + Weight(b)
    case Optional(b) => 1 + Weight(b)
    case Case(_, a, b) => 1 + Weight(a) + Weight(b)
    case ListOf(e) => 1 + 2 * Weight(e)
    case Stack => 4
    case Slot => 4
  }

  function Stacks(sh: Shape): nat {
    match sh
    case Seq(a, b) => Stacks(a) + Stacks(b)
    case Optional(b) => Stacks(b)
    case Case(_, a, b) => Stacks(a) + Stacks(b)
    case ListOf(e) => Stacks(e)
    case Stack => 1
    case Slot => 1
    case _ => 0
  }

  const MAX_WEIGHT := 30

  /** Every list is of elements that take a byte, the shape is small, and nests one stack. */
  predicate Tame(sh: Shape) { WellShaped(sh) && Weight(sh) <= MAX_WEIGHT && Stacks(sh) <= 1 }

  // The equations of the measures, for unfolding them through a whole shape at once.

  lemma FormLaws()
    ensures !NonEmpty(Empty) && NonEmpty(Reject) && NonEmpty(VarInt) && NonEmpty(Text)
    ensures NonEmpty(Tag) && NonEmpty(IdSet) && NonEmpty(Stack) && NonEmpty(Slot)
    ensures WellShaped(Empty) && WellShaped(Reject) && WellShaped(VarInt) && WellShaped(Text)
    ensures WellShaped(Tag) && WellShaped(IdSet) && WellShaped(Stack) && WellShaped(Slot)
    ensures forall k: nat {:trigger NonEmpty(Fixed(k))} :: NonEmpty(Fixed(k)) <==> k > 0
    ensures forall k: nat {:trigger WellShaped(Fixed(k))} :: WellShaped(Fixed(k)) <==> k > 0
    ensures forall a: Shape, b: Shape {:trigger NonEmpty(Seq(a, b))} ::
              NonEmpty(Seq(a, b)) <==> NonEmpty(a) || NonEmpty(b)
    ensures forall a: Shape, b: Shape {:trigger WellShaped(Seq(a, b))} ::
              WellShaped(Seq(a, b)) <==> WellShaped(a) && WellShaped(b)
    ensures forall b: Shape {:trigger NonEmpty(Optional(b))} :: NonEmpty(Optional(b))
    ensures forall b: Shape {:trigger WellShaped(Optional(b))} :: WellShaped(Optional(b)) <==> WellShaped(b)
    ensures forall k: int32, a: Shape, b: Shape {:trigger NonEmpty(Case(k, a, b))} :: NonEmpty(Case(k, a, b))
    ensures forall k: int32, a: Shape, b: Shape {:trigger WellShaped(Case(k, a, b))} ::
              WellShaped(Case(k, a, b)) <==> WellShaped(a) && WellShaped(b)
    ensures forall e: Shape {:trigger NonEmpty(ListOf(e))} :: NonEmpty(ListOf(e))
    ensures forall e: Shape {:trigger WellShaped(ListOf(e))} :: WellShaped(ListOf(e)) <==> NonEmpty(e) && WellShaped(e)
  {
  }

  lemma SizeLaws()
    ensures Weight(Empty) == 0 && Weight(Reject) == 0 && Weight(VarInt) == 1 && Weight(Text) == 2
    ensures Weight(Tag) == 3 && Weight(IdSet) == 3 && Weight(Stack) == 4 && Weight(Slot) == 4
    ensures Stacks(Empty) == 0 && Stacks(Reject) == 0 && Stacks(VarInt) == 0 && Stacks(Text) == 0
    ensures Stacks(Tag) == 0 && Stacks(IdSet) == 0 && Stacks(Stack) == 1 && Stacks(Slot) == 1
    ensures forall k: nat {:trigger Weight(Fixed(k))} :: Weight(Fixed(k)) == 1
    ensures forall k: nat {:trigger Stacks(Fixed(k))} :: Stacks(Fixed(k)) == 0
    ensures forall a: Shape, b: Shape {:trigger Weight(Seq(a, b))} :: Weight(Seq(a, b)) == Weight(a) + Weight(b)
    ensures forall a: Shape, b: Shape {:trigger Stacks(Seq(a, b))} :: Stacks(Seq(a, b)) == Stacks(a) + Stacks(b)
    ensures forall b: Shape {:trigger Weight(Optional(b))} :: Weight(Optional(b)) == 1 + Weight(b)
    ensures forall b: Shape {:trigger Stacks(Optional(b))} :: Stacks(Optional(b)) == Stacks(b)
    ensures forall k: int32, a: Shape, b: Shape {:trigger Weight(Case(k, a, b))} ::
              Weight(Case(k, a, b)) == 1 + Weight(a) + Weight(b)
    ensures forall k: int32, a: Shape, b: Shape {:trigger Stacks(Case(k, a, b))} ::
              Stacks(Case(k, a, b)) == Stacks(a) + Stacks(b)
    ensures forall e: Shape {:trigger Weight(ListOf(e))} :: Weight(ListOf(e)) == 1 + 2 * Weight(e)
    ensures forall e: Shape {:trigger Stacks(ListOf(e))} :: Stacks(ListOf(e)) == Stacks(e)
  {
  }

  lemma VersionedTame(e: Encoding, kind: int32)
    ensures Tame(FlaggedHolder(e)) && Tame(TagName(e)) && Tame(EntityData(e)) && Tame(EntityVariant(e, kind))
    ensures Tame(Trim(e)) && Tame(ContainerContents(e)) && Tame(ListOf(Bee(e)))
  {
    hide NonEmpty, WellShaped, Weight, Stacks;
    FormLaws();
    SizeLaws();
  }

  lemma WornTame(e: Encoding)
    ensures Tame(BlockPredicates(e)) && Tame(Equippable(e))
  {
    hide NonEmpty, WellShaped, Weight, Stacks;
    FormLaws();
    SizeLaws();
  }

  lemma BorneTame(e: Encoding)
    ensures Tame(BlocksAttacks(e)) && Tame(Profile(e))
  {
    hide NonEmpty, WellShaped, Weight, Stacks;
    FormLaws();
    SizeLaws();
  }

  lemma ToolsTame()
    ensures Tame(KINETIC_WEAPON) && Tame(PIERCING_WEAPON) && Tame(TOOL) && Tame(CONSUMABLE) && Tame(POTION_CONTENTS)
  {
    hide NonEmpty, WellShaped, Weight, Stacks;
    FormLaws();
    SizeLaws();
  }

  lemma BooksTame()
    ensures Tame(WRITTEN_BOOK) && Tame(WRITABLE_BOOK) && Tame(CUSTOM_MODEL_DATA) && Tame(LODESTONE_TRACKER)
    ensures Tame(FIREWORKS) && Tame(FIREWORK_EXPLOSION) && Tame(ListOf(ATTRIBUTE_MODIFIER)) && Tame(VAR_INT_PAIRS)
  {
    hide NonEmpty, WellShaped, Weight, Stacks;
    FormLaws();
    SizeLaws();
  }

  lemma InlineTame()
    ensures Tame(Seq(FLAG, ListOf(VarInt))) && Tame(Seq(VarInt, Seq(F32, FLAG))) && Tame(Seq(F32, Optional(Text)))
    ensures Tame(Seq(VarInt, F32)) && Tame(Fixed(24)) && Tame(Empty) && Tame(NONE_OF) && Tame(Stack)
    ensures Tame(ListOf(Tag)) && Tame(ListOf(VarInt)) && Tame(ListOf(Seq(Text, Text))) && Tame(ListOf(Stack))
    ensures Tame(ListOf(Seq(HOLDER, VarInt))) && Tame(Seq(VarInt, VarInt)) && Tame(Seq(FLAG, Seq(FLAG, F32)))
    ensures Tame(VarInt) && Tame(F32) && Tame(Tag) && Tame(FLAG) && Tame(Text) && Tame(HOLDER) && Tame(IdSet)
  {
    hide NonEmpty, WellShaped, Weight, Stacks;
    FormLaws();
    SizeLaws();
  }

  lemma StructuredTame(e: Encoding, kind: int32)
    ensures Tame(StructuredShape(e, kind))
  {
    hide WellShaped, Weight, Stacks, Tame, BlockPredicates, Equippable, BlocksAttacks, Bee, Trim, ContainerContents,
      Profile, EntityVariant;
    VersionedTame(e, kind);
    WornTame(e);
    BorneTame(e);
    ToolsTame();
    BooksTame();
    InlineTame();
  }

  /** Every payload shape in the table is tame, whatever the encoding flags. */
  lemma ComponentTame(e: Encoding, kind: int32)
    ensures Tame(ComponentShape(e, kind))
  {
    hide WellShaped, Weight, Stacks, Tame, StructuredShape, FlaggedHolder, TagName, EntityData;
    StructuredTame(e, kind);
    VersionedTame(e, kind);
    ToolsTame();
    InlineTame();
  }

  // --------------------------------------------------------------- exact consumption

  /** Running a shape over the encoding of one of its values leaves exactly what follows. */
  lemma {:induction false} ShapeRoundTrip(v: Version, sh: Shape, x: Val, d: nat, suffix: bytes)
    requires d <= COMPONENT_DEPTH && WellShaped(sh) && Fits(v, sh, x, d)
    ensures Run(v, sh, d, At(Bytes(v, x) + suffix)) == At(suffix)
    decreases x, 1, sh
  {
    hide ItemBytes, RunStack, ItemFits, VarIntBytes, CountBytes, TextBytes, VarIntsBytes, ManyBytes, ManyFit,
      RunMany, AfterIdSet, AfterTag, ListCount, AfterCount, Nbt.RootBytes, Nbt.RootFits, NonEmpty;
    match sh
    case Seq(a, b) =>
      assert Bytes(v, x) + suffix == Bytes(v, x.fst) + (Bytes(v, x.snd) + suffix);
      ShapeRoundTrip(v, a, x.fst, d, Bytes(v, x.snd) + suffix);
      ShapeRoundTrip(v, b, x.snd, d, suffix);
    case Optional(b) =>
      if x.Present? {
        FlagAt(1, Bytes(v, x.body) + suffix);
        assert Bytes(v, x) + suffix == [1] + (Bytes(v, x.body) + suffix);
        ShapeRoundTrip(v, b, x.body, d, suffix);
      } else {
        FlagAt(0, suffix);
      }
    case Case(k, a, b) =>
      assert Bytes(v, x) + suffix == VarIntBytes(x.n) + (Bytes(v, x.body) + suffix);
      VarIntAt(x.n, Bytes(v, x.body) + suffix);
      ShapeRoundTrip(v, if x.n == k then a else b, x.body, d, suffix);
    case ListOf(e) =>
      ManyTakeBytes(v, e, x.items, d);
      assert Bytes(v, x) + suffix == CountBytes(Length(x.items)) + (ManyBytes(v, x.items) + suffix);
      CountAt(Length(x.items), ManyBytes(v, x.items) + suffix);
      ManyRoundTrip(v, e, x.items, d, suffix);
    case Stack => StackRoundTrip(v, x.stack, d, suffix);
    case Slot =>
      if x.Held? {
        CountFirst(v, x.stack, suffix);
        StackRoundTrip(v, x.stack, d, suffix);
      }
    case _ => LeafRoundTrip(v, sh, x, d, suffix);
  }

  lemma FlagAt(flag: byte, suffix: bytes)
    ensures At([flag] + suffix).Peek(1) == flag && At([flag] + suffix).Skip(1) == At(suffix)
  {
    SkipAt([flag], suffix);
  }

  lemma LeafRoundTrip(v: Version, sh: Shape, x: Val, d: nat, suffix: bytes)
    requires d <= COMPONENT_DEPTH && Fits(v, sh, x, d)
    requires sh.Empty? || sh.VarInt? || sh.Fixed? || sh.Text? || sh.Tag? || sh.IdSet?
    ensures Run(v, sh, d, At(Bytes(v, x) + suffix)) == At(suffix)
  {
    hide VarIntBytes, CountBytes, TextBytes, Nbt.TagSpan;
    match sh
    case Empty => assert Bytes(v, x) + suffix == suffix;
    case VarInt => VarIntAt(x.n, suffix);
    case Fixed(n) => SkipAt(x.bs, suffix);
    case Text => TextAt(x.text, suffix);
    case Tag =>
      Nbt.RootSkipped(x.root, suffix);
      SkipAt(Nbt.RootBytes(x.root), suffix);
    case IdSet => IdSetAt(x, suffix);
  }

  lemma {:induction false} ManyRoundTrip(v: Version, e: Shape, xs: Vals, d: nat, suffix: bytes)
    requires d <= COMPONENT_DEPTH && WellShaped(e) && ManyFit(v, e, xs, d)
    ensures RunMany(v, e, Length(xs), d, At(ManyBytes(v, xs) + suffix)) == At(suffix)
    decreases xs, 1
  {
    match xs
    case VNil => assert ManyBytes(v, xs) + suffix == suffix;
    case VCons(head, tail) =>
      assert ManyBytes(v, xs) + suffix == Bytes(v, head) + (ManyBytes(v, tail) + suffix);
      ShapeRoundTrip(v, e, head, d, ManyBytes(v, tail) + suffix);
      ManyRoundTrip(v, e, tail, d, suffix);
  }

  /** In count-first mode a present stack never looks like an empty slot: the VarInt of a
      nonzero count does not start with a zero byte. */
  lemma CountFirst(v: Version, item: Item, suffix: bytes)
    requires v.enc.nestedStacksCountFirst && item.count != 0
    ensures var s := ItemBytes(v, item) + suffix; s != [] && s[0] != 0
  {
    VarIntAt(item.count, []);
  }

  lemma {:induction false} StackRoundTrip(v: Version, item: Item, d: nat, suffix: bytes)
    requires d <= COMPONENT_DEPTH && ItemFits(v, item, d)
    ensures RunStack(v, d, At(ItemBytes(v, item) + suffix)) == At(suffix)
    decreases item
  {
    hide VarIntBytes, CountBytes, VarIntsBytes, ComponentsBytes, ComponentsFit, RunComponents, AfterVarInts, ItemTail;
    var a := if v.enc.nestedStacksCountFirst then item.count else item.id;
    var b := if v.enc.nestedStacksCountFirst then item.id else item.count;
    var tail := ItemTail(v, item) + suffix;
    assert ItemBytes(v, item) + suffix == VarIntBytes(a) + (VarIntBytes(b) + tail);
    VarIntAt(a, VarIntBytes(b) + tail);
    VarIntAt(b, tail);
    TailRoundTrip(v, item, d + 1, suffix);
  }

  /** What follows an item's id and count, for components at depth d. */
  lemma {:induction false} TailRoundTrip(v: Version, item: Item, d: nat, suffix: bytes)
    requires d <= COMPONENT_DEPTH + 1 && CountsFit(item) && ComponentsFit(v, item.added, d)
    ensures var s := At(ItemTail(v, item) + suffix);
            && ListCount(s) == Added(item.added) && ListCount(AfterCount(s)) == |item.removed|
            && AfterCount(AfterCount(s)) == At(ComponentsBytes(v, item.added) + (VarIntsBytes(item.removed) + suffix))
            && AfterVarInts(RunComponents(v, ListCount(s), d, AfterCount(AfterCount(s))), |item.removed|) == At(suffix)
    decreases item, 0
  {
    hide CountBytes, ListCount, AfterCount;
    var ids := VarIntsBytes(item.removed) + suffix;
    var comps := ComponentsBytes(v, item.added) + ids;
    var removed := CountBytes(|item.removed|) + comps;
    assert ItemTail(v, item) + suffix == CountBytes(Added(item.added)) + removed;
    ComponentsTakeBytes(v, item.added);
    VarIntsSkipped(item.removed, suffix);
    CountAt(Added(item.added), removed);
    CountAt(|item.removed|, comps);
    ComponentsRoundTrip(v, item.added, d, ids);
  }

  lemma {:induction false} ComponentsRoundTrip(v: Version, cs: Components, d: nat, suffix: bytes)
    requires d <= COMPONENT_DEPTH + 1 && ComponentsFit(v, cs, d)
    ensures RunComponents(v, Added(cs), d, At(ComponentsBytes(v, cs) + suffix)) == At(suffix)
    decreases cs
  {
    hide VarIntBytes, Run, Fits, Bytes, WellShaped, ComponentShape, Weight, Stacks;
    match cs
    case CNil => assert ComponentsBytes(v, cs) + suffix == suffix;
    case CCons(wire, payload, rest) =>
      var tail := ComponentsBytes(v, rest) + suffix;
      assert ComponentsBytes(v, cs) + suffix == VarIntBytes(wire) + (Bytes(v, payload) + tail);
      VarIntAt(wire, Bytes(v, payload) + tail);
      var kind := CanonicalComponent(v, wire).value;
      ComponentTame(v.enc, kind);
      ShapeRoundTrip(v, ComponentShape(v.enc, kind), payload, d, tail);
      ComponentsRoundTrip(v, rest, d, suffix);
  }
}
