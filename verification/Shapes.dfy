/** A small language of wire shapes, for payloads that carry no length of their own
(`understudy/components.go`). A shape says what a skipper reads; `Run` says where that
leaves the reader on any bytes at all, `Cost` bounds the reads made, and `Bytes` is the
encoding of a value of the shape. The grammar is mutually recursive: an item stack holds
components, and a component's shape may hold item stacks. */
module Shapes {
  import opened Words
  import opened Wire
  import Nbt

  datatype Shape =
    | Empty                                          // no payload
    | Reject                                         // something that cannot be skipped
    | VarInt
    | Fixed(size: nat)                               // that many bytes
    | Text
    | Tag                                            // a nameless NBT value
    | IdSet                                          // a holder set
    | Seq(first: Shape, rest: Shape)
    | Optional(body: Shape)                          // a bool, and the body when it is set
    | Case(key: int32, equal: Shape, other: Shape)   // a VarInt chooses
    | ListOf(elem: Shape)                            // a count the bytes can hold, then that many
    | Stack                                          // a nested item stack
    | Slot                                           // a zero byte, or a count-first stack

  /** How a version encodes component payloads. */
  datatype Encoding = Encoding(
    nestedStacksCountFirst: bool,
    tagsAreBareStrings: bool,
    registryRefsHaveLeadingFlag: bool,
    entityDataKeepsTypeInNbt: bool,
    legacyBlockPredicates: bool,
    equippableHasNoShearing: bool,
    trimHasTooltipFlag: bool,
    profileHasNoVariantTag: bool)

  /** A version's component ids, and its encodings if they have been measured. */
  datatype Version = Version(ids: Option<map<int32, int32>>, known: bool, enc: Encoding)

  const COMPONENT_DEPTH := 16

  /** The canonical id of a wire id, when the version can read it. */
  function CanonicalComponent(v: Version, wire: int32): Option<int32> {
    if v.ids == None || !v.known || wire !in v.ids.value then None else Some(v.ids.value[wire])
  }

  // ------------------------------------------------------------------- named sub-shapes

  const FLAG := Fixed(1)
  const F32 := Fixed(4)
  /** A reference to a registry entry; zero would mean an inline definition. */
  const HOLDER := Case(0, Reject, Empty)
  /** A count that must be zero, of things that cannot be walked into. */
  const NONE_OF := Case(0, Empty, Reject)

  function FlaggedHolder(e: Encoding): Shape {
    if e.registryRefsHaveLeadingFlag then Seq(Case(0, Reject, Empty), HOLDER) else HOLDER
  }

  function TagName(e: Encoding): Shape { if e.tagsAreBareStrings then Text else IdSet }

  const POTION_CONTENTS := Seq(Optional(VarInt), Seq(Optional(F32), Seq(NONE_OF, NONE_OF)))

  function BlockPredicate(e: Encoding): Shape {
    Seq(Optional(IdSet), Seq(Optional(Reject), Seq(Optional(Tag),
      if e.legacyBlockPredicates then Empty else Seq(NONE_OF, NONE_OF))))
  }

  function BlockPredicates(e: Encoding): Shape {
    Seq(ListOf(BlockPredicate(e)), if e.legacyBlockPredicates then FLAG else Empty)
  }

  const CONSUMABLE := Seq(F32, Seq(VarInt, Seq(HOLDER, Seq(FLAG, NONE_OF))))
  const TOOL_RULE := Seq(IdSet, Seq(Optional(F32), Optional(FLAG)))
  const TOOL := Seq(ListOf(TOOL_RULE), Seq(F32, Seq(VarInt, FLAG)))

  function Equippable(e: Encoding): Shape {
    Seq(VarInt, Seq(HOLDER, Seq(Optional(Text), Seq(Optional(Text), Seq(Optional(IdSet),
      if e.equippableHasNoShearing then Fixed(3) else Seq(Fixed(5), HOLDER))))))
  }

  const TWO_SOUNDS := Seq(Optional(HOLDER), Optional(HOLDER))

  function BlocksAttacks(e: Encoding): Shape {
    Seq(F32, Seq(F32, Seq(NONE_OF, Seq(F32, Seq(F32, Seq(F32, Seq(Optional(TagName(e)), TWO_SOUNDS)))))))
  }

  function EntityData(e: Encoding): Shape {
    if e.entityDataKeepsTypeInNbt then Tag else Seq(VarInt, Tag)
  }

  function Bee(e: Encoding): Shape { Seq(EntityData(e), Seq(VarInt, VarInt)) }

  const PIERCING_WEAPON := Seq(VarInt, Seq(VarInt, TWO_SOUNDS))
  const CONDITION := Optional(Seq(VarInt, Seq(F32, F32)))
  const KINETIC_WEAPON :=
    Seq(VarInt, Seq(VarInt, Seq(CONDITION, Seq(CONDITION, Seq(CONDITION, Seq(F32, Seq(F32, TWO_SOUNDS)))))))

  function Trim(e: Encoding): Shape {
    Seq(HOLDER, Seq(HOLDER, if e.trimHasTooltipFlag then FLAG else Empty))
  }

  const FIREWORK_EXPLOSION := Seq(VarInt, Seq(ListOf(F32), Seq(ListOf(F32), Seq(FLAG, FLAG))))
  const FIREWORKS := Seq(VarInt, ListOf(FIREWORK_EXPLOSION))
  const ATTRIBUTE_MODIFIER := Seq(VarInt, Seq(Text, Seq(Fixed(8), Seq(VarInt, Seq(VarInt, Case(2, Tag, Empty))))))
  const LODESTONE_TRACKER := Seq(Optional(Seq(Text, Fixed(8))), FLAG)
  const NAME_AND_UUID := Seq(Optional(Text), Optional(Fixed(16)))
  const PROFILE_PROPERTY := Seq(Text, Seq(Text, Optional(Text)))
  const UNSEEN := Optional(Reject)

  function ProfileProperties(trailing: bool): Shape {
    Seq(ListOf(PROFILE_PROPERTY), if trailing then Seq(UNSEEN, Seq(UNSEEN, Seq(UNSEEN, UNSEEN))) else Empty)
  }

  function Profile(e: Encoding): Shape {
    if e.profileHasNoVariantTag then Seq(NAME_AND_UUID, ProfileProperties(false))
    else Seq(Case(0, NAME_AND_UUID, Seq(Fixed(16), Text)), ProfileProperties(true))
  }

  const WRITTEN_PAGE := Seq(Tag, Optional(Tag))
  const WRITTEN_BOOK := Seq(Text, Seq(Optional(Text), Seq(Text, Seq(VarInt, Seq(ListOf(WRITTEN_PAGE), FLAG)))))
  const WRITABLE_BOOK := ListOf(Seq(Text, Optional(Text)))
  const CUSTOM_MODEL_DATA := Seq(ListOf(F32), Seq(ListOf(FLAG), Seq(ListOf(Text), ListOf(F32))))
  const VAR_INT_PAIRS := ListOf(Seq(VarInt, VarInt))

  function ContainerContents(e: Encoding): Shape {
    ListOf(if e.nestedStacksCountFirst then Slot else Optional(Stack))
  }

  function EntityVariant(e: Encoding, kind: int32): Shape {
    if !(81 <= kind <= 109) then Reject
    else if (kind == 97 || kind == 99) && e.registryRefsHaveLeadingFlag then Seq(Case(0, Reject, Empty), VarInt)
    else VarInt
  }

  /** The payload of every component, by canonical id. Ids without a shape are refused. */
  function ComponentShape(e: Encoding, kind: int32): Shape {
    match kind
    case 51 => POTION_CONTENTS
    case 4 => Empty
    case 1 => VarInt case 2 => VarInt case 3 => VarInt case 12 => VarInt case 19 => VarInt
    case 31 => VarInt case 46 => VarInt
    case 44 => F32 case 45 => F32
    case 0 => Tag case 6 => Tag case 9 => Tag case 22 => Tag case 47 => Tag case 57 => Tag
    case 59 => Tag case 66 => Tag case 78 => Tag case 79 => Tag
    case 40 => Seq(VarInt, VarInt)
    case 5 => Seq(FLAG, Seq(FLAG, F32))
    case 21 => FLAG
    case 7 => F32 case 52 => F32
    case 10 => Text case 35 => Text case 71 => Text
    case 43 => VarInt case 63 => VarInt case 73 => VarInt
    case 80 => HOLDER
    case 8 => FlaggedHolder(e) case 61 => FlaggedHolder(e) case 62 => FlaggedHolder(e) case 64 => FlaggedHolder(e)
    case 33 => IdSet
    case 27 => TagName(e) case 65 => TagName(e)
    case 58 => EntityData(e) case 60 => EntityData(e)
    case _ => StructuredShape(e, kind)
  }

  function StructuredShape(e: Encoding, kind: int32): Shape {
    match kind
    case 14 => BlockPredicates(e) case 15 => BlockPredicates(e)
    case 18 => Seq(FLAG, ListOf(VarInt))
    case 23 => Seq(VarInt, Seq(F32, FLAG))
    case 24 => CONSUMABLE
    case 110 => Stack case 25 => Stack
    case 26 => Seq(F32, Optional(Text))
    case 28 => TOOL
    case 29 => Seq(VarInt, F32)
    case 30 => Fixed(24)
    case 32 => Equippable(e)
    case 34 => Empty
    case 36 => NONE_OF
    case 37 => BlocksAttacks(e)
    case 77 => ListOf(Bee(e))
    case 38 => PIERCING_WEAPON
    case 39 => KINETIC_WEAPON
    case 56 => Trim(e)
    case 75 => ContainerContents(e)
    case 68 => FIREWORK_EXPLOSION
    case 16 => ListOf(ATTRIBUTE_MODIFIER)
    case 67 => LODESTONE_TRACKER
    case 70 => Profile(e)
    case 55 => WRITTEN_BOOK
    case 11 => ListOf(Tag)
    case 17 => CUSTOM_MODEL_DATA
    case 74 => ListOf(VarInt)
    case 76 => ListOf(Seq(Text, Text))
    case 72 => ListOf(Seq(HOLDER, VarInt))
    case 49 => ListOf(Stack) case 50 => ListOf(Stack)
    case 69 => FIREWORKS
    case 54 => WRITABLE_BOOK
    case 13 => VAR_INT_PAIRS case 42 => VAR_INT_PAIRS case 53 => VAR_INT_PAIRS
    case _ => EntityVariant(e, kind)
  }

  // ----------------------------------------------------- where a skipper leaves the reader

  /** A list length, refused when the bytes remaining could not hold that many elements. */
  function CountFits(s: Stream): bool { 0 <= s.VarInt() <= |s.AfterVarInt().Remaining()| }

  function ListCount(s: Stream): nat { if CountFits(s) then s.VarInt() else 0 }

  function AfterCount(s: Stream): Stream { if CountFits(s) then s.AfterVarInt() else Broken }

  function AfterTag(s: Stream): Stream {
    match Nbt.TagSpan(s.Remaining()) case None => Broken case Some(n) => s.Skip(n)
  }

  /** How many ids follow a holder set's count; a count of zero means a tag name instead. */
  function IdCount(s: Stream): nat {
    if 1 <= s.VarInt() && s.VarInt() - 1 <= |s.AfterVarInt().Remaining()| then s.VarInt() - 1 else 0
  }

  function AfterIdSet(s: Stream): Stream {
    if s.VarInt() == 0 then s.AfterVarInt().AfterString()
    else if s.VarInt() < 0 || s.VarInt() - 1 > |s.AfterVarInt().Remaining()| then Broken
    else AfterVarInts(s.AfterVarInt(), IdCount(s))
  }

  function Run(v: Version, sh: Shape, d: nat, s: Stream): Stream
    requires d <= COMPONENT_DEPTH
    decreases COMPONENT_DEPTH + 1 - d, 1, sh, 0
  {
    match sh
    case Empty => s
    case Reject => Broken
    case VarInt => s.AfterVarInt()
    case Fixed(n) => s.Skip(n)
    case Text => s.AfterString()
    case Tag => AfterTag(s)
    case IdSet => AfterIdSet(s)
    case Seq(a, b) => Run(v, b, d, Run(v, a, d, s))
    case Optional(b) => if s.Peek(1) != 0 then Run(v, b, d, s.Skip(1)) else s.Skip(1)
    case Case(k, a, b) => if s.VarInt() == k then Run(v, a, d, s.AfterVarInt()) else Run(v, b, d, s.AfterVarInt())
    case ListOf(e) => RunMany(v, e, ListCount(s), d, AfterCount(s))
    case Stack => RunStack(v, d, s)
    case Slot =>
      if s.Err() || s.rest == [] then s
      else if s.rest[0] == 0 then s.Skip(1)
      else RunStack(v, d, s)
  }

  function RunMany(v: Version, e: Shape, n: nat, d: nat, s: Stream): Stream
    requires d <= COMPONENT_DEPTH
    decreases COMPONENT_DEPTH + 1 - d, 1, e, n
  {
    if n == 0 then s else RunMany(v, e, n - 1, d, Run(v, e, d, s))
  }

  /** A stack inside a component at depth d: two VarInts in either order, the counts of
      added and removed components, the added ones one level down, the removed ids. */
  function RunStack(v: Version, d: nat, s: Stream): Stream
    requires d <= COMPONENT_DEPTH
    decreases COMPONENT_DEPTH + 1 - d, 0
  {
    var s1 := s.AfterVarInt().AfterVarInt();
    var s2 := AfterCount(s1);
    AfterVarInts(RunComponents(v, ListCount(s1), d + 1, AfterCount(s2)), ListCount(s2))
  }

  function RunComponents(v: Version, n: nat, d: nat, s: Stream): Stream
    requires d <= COMPONENT_DEPTH + 1
    decreases COMPONENT_DEPTH + 1 - d, 3, n
  {
    if n == 0 then s
    else RunComponents(v, n - 1, d, RunComponent(v, s.VarInt(), d, s.AfterVarInt()))
  }

  /** One component's payload, after its wire id. */
  function RunComponent(v: Version, wire: int32, d: nat, s: Stream): Stream
    requires d <= COMPONENT_DEPTH + 1
    decreases COMPONENT_DEPTH + 1 - d, 2
  {
    if d > COMPONENT_DEPTH then Broken
    else match CanonicalComponent(v, wire)
      case None => Broken
      case Some(kind) => Run(v, ComponentShape(v.enc, kind), d, s)
  }

  // ----------------------------------------------------------------- a failure is final

  lemma StackBroken(v: Version, d: nat)
    requires d <= COMPONENT_DEPTH
    ensures RunStack(v, d, Broken) == Broken
  {
    assert RunComponents(v, 0, d + 1, Broken) == Broken;
  }

  lemma {:induction false} RunBroken(v: Version, sh: Shape, d: nat)
    requires d <= COMPONENT_DEPTH
    ensures Run(v, sh, d, Broken) == Broken
    decreases sh
  {
    match sh
    case Seq(a, b) => RunBroken(v, a, d); RunBroken(v, b, d);
    case Case(k, a, b) => RunBroken(v, a, d); RunBroken(v, b, d);
    case Stack => StackBroken(v, d);
    case _ =>
  }

  lemma {:induction false} ManyBroken(v: Version, e: Shape, n: nat, d: nat)
    requires d <= COMPONENT_DEPTH
    ensures RunMany(v, e, n, d, Broken) == Broken
    decreases n
  {
    if n > 0 {
      RunBroken(v, e, d);
      ManyBroken(v, e, n - 1, d);
    }
  }

  lemma {:induction false} ComponentsBroken(v: Version, n: nat, d: nat)
    requires d <= COMPONENT_DEPTH + 1
    ensures RunComponents(v, n, d, Broken) == Broken
    decreases n
  {
    if n > 0 {
      if d <= COMPONENT_DEPTH && CanonicalComponent(v, 0).Some? {
        RunBroken(v, ComponentShape(v.enc, CanonicalComponent(v, 0).value), d);
      }
      ComponentsBroken(v, n - 1, d);
    }
  }
}
