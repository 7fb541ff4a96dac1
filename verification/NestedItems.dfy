/** Components that hold item stacks, which hold components: the recursion, its depth bound,
and the dispatch on a component's kind (`understudy/components.go`). */
module NestedItems {
  import opened Words
  import opened Wire
  import opened Shapes
  import opened ShapeCost
  import opened Plans
  import opened FieldSkippers
  import opened Skippers

  // ------------------------------------------------------------- payloads of one field

  method SkipNumber(v: Version, r: Reader, d: nat) returns (err: bool)
    requires d <= COMPONENT_DEPTH
    modifies r
    ensures Did(v, VarInt, d, old(r.State()), old(r.steps), err, r)
  {
    hide On, OnAt, Run, Cost;
    ghost var p := Begin(v, VarInt, d, r);
    var _, q := Num(r, p);
    Stop(q, r);
    return r.failed;
  }

  method SkipBytes(v: Version, n: nat, r: Reader, d: nat) returns (err: bool)
    requires d <= COMPONENT_DEPTH
    modifies r
    ensures Did(v, Fixed(n), d, old(r.State()), old(r.steps), err, r)
  {
    hide On, OnAt, Run, Cost;
    ghost var p := Begin(v, Fixed(n), d, r);
    p := Bytes(r, n, p);
    Stop(p, r);
    return r.failed;
  }

  method SkipText(v: Version, r: Reader, d: nat) returns (err: bool)
    requires d <= COMPONENT_DEPTH
    modifies r
    ensures Did(v, Text, d, old(r.State()), old(r.steps), err, r)
  {
    hide On, OnAt, Run, Cost;
    ghost var p := Begin(v, Text, d, r);
    p := Str(r, p);
    Stop(p, r);
    return r.failed;
  }

  method SkipTag(v: Version, r: Reader, d: nat) returns (err: bool)
    requires d <= COMPONENT_DEPTH
    modifies r
    ensures Did(v, Tag, d, old(r.State()), old(r.steps), err, r)
  {
    hide On, OnAt, Run, Cost;
    ghost var p := Begin(v, Tag, d, r);
    err, p := SkipNbt(r, p);
    if !err { Stop(p, r); }
  }

  method SkipIdSetOnly(v: Version, r: Reader, d: nat) returns (err: bool)
    requires d <= COMPONENT_DEPTH
    modifies r
    ensures Did(v, IdSet, d, old(r.State()), old(r.steps), err, r)
  {
    hide On, OnAt, Run, Cost;
    ghost var p := Begin(v, IdSet, d, r);
    p := SkipIdSet(r, p);
    Stop(p, r);
    return r.failed;
  }

  method SkipTagName(v: Version, r: Reader, d: nat) returns (err: bool)
    requires d <= COMPONENT_DEPTH
    modifies r
    ensures Did(v, TagName(v.enc), d, old(r.State()), old(r.steps), err, r)
  {
    if v.enc.tagsAreBareStrings { err := SkipText(v, r, d); } else { err := SkipIdSetOnly(v, r, d); }
  }

  method SkipHolderOnly(v: Version, r: Reader, d: nat) returns (err: bool)
    requires d <= COMPONENT_DEPTH
    modifies r
    ensures Did(v, HOLDER, d, old(r.State()), old(r.steps), err, r)
  {
    hide On, OnAt, Run, Cost;
    ghost var p := Begin(v, HOLDER, d, r);
    err, p := SkipHolder(r, p);
    if !err { Stop(p, r); }
  }

  method SkipFlaggedHolder(v: Version, r: Reader, d: nat) returns (err: bool)
    requires d <= COMPONENT_DEPTH
    modifies r
    ensures Did(v, FlaggedHolder(v.enc), d, old(r.State()), old(r.steps), err, r)
  {
    hide On, OnAt, Run, Cost;
    ghost var p := Begin(v, FlaggedHolder(v.enc), d, r);
    if v.enc.registryRefsHaveLeadingFlag {
      err, p := SkipFlag(r, p);
      if err { return; }
    }
    err, p := SkipHolder(r, p);
    if !err { Stop(p, r); }
  }

  method SkipEntityData(v: Version, r: Reader, d: nat) returns (err: bool)
    requires d <= COMPONENT_DEPTH
    modifies r
    ensures Did(v, EntityData(v.enc), d, old(r.State()), old(r.steps), err, r)
  {
    hide On, OnAt, Run, Cost;
    ghost var p := Begin(v, EntityData(v.enc), d, r);
    if !v.enc.entityDataKeepsTypeInNbt {
      var _, q := Num(r, p);
      p := q;
    }
    err, p := SkipNbt(r, p);
    if !err { Stop(p, r); }
  }

  // --------------------------------------------------------------- a few fields in a row

  method SkipTwoNumbers(v: Version, r: Reader, d: nat) returns (err: bool)
    requires d <= COMPONENT_DEPTH
    modifies r
    ensures Did(v, Seq(VarInt, VarInt), d, old(r.State()), old(r.steps), err, r)
  {
    hide On, OnAt, Run, Cost;
    ghost var p := Begin(v, Seq(VarInt, VarInt), d, r);
    var _, p1 := Num(r, p);
    var _, p2 := Num(r, p1);
    Stop(p2, r);
    return r.failed;
  }

  method SkipUseEffects(v: Version, r: Reader, d: nat) returns (err: bool)
    requires d <= COMPONENT_DEPTH
    modifies r
    ensures Did(v, Seq(FLAG, Seq(FLAG, F32)), d, old(r.State()), old(r.steps), err, r)
  {
    hide On, OnAt, Run, Cost;
    ghost var p := Begin(v, Seq(FLAG, Seq(FLAG, F32)), d, r);
    p := Bytes(r, 1, p);
    p := Bytes(r, 1, p);
    p := Bytes(r, 4, p);
    Stop(p, r);
    return r.failed;
  }

  method SkipFood(v: Version, r: Reader, d: nat) returns (err: bool)
    requires d <= COMPONENT_DEPTH
    modifies r
    ensures Did(v, Seq(VarInt, Seq(F32, FLAG)), d, old(r.State()), old(r.steps), err, r)
  {
    hide On, OnAt, Run, Cost;
    ghost var p := Begin(v, Seq(VarInt, Seq(F32, FLAG)), d, r);
    var _, p1 := Num(r, p);
    p := Bytes(r, 4, p1);
    p := Bytes(r, 1, p);
    Stop(p, r);
    return r.failed;
  }

  method SkipUseCooldown(v: Version, r: Reader, d: nat) returns (err: bool)
    requires d <= COMPONENT_DEPTH
    modifies r
    ensures Did(v, Seq(F32, Optional(Text)), d, old(r.State()), old(r.steps), err, r)
  {
    hide On, OnAt, Run, Cost;
    ghost var p := Begin(v, Seq(F32, Optional(Text)), d, r);
    p := Bytes(r, 4, p);
    p := OptionalText(r, p);
    Stop(p, r);
    return r.failed;
  }

  method SkipWeapon(v: Version, r: Reader, d: nat) returns (err: bool)
    requires d <= COMPONENT_DEPTH
    modifies r
    ensures Did(v, Seq(VarInt, F32), d, old(r.State()), old(r.steps), err, r)
  {
    hide On, OnAt, Run, Cost;
    ghost var p := Begin(v, Seq(VarInt, F32), d, r);
    var _, p1 := Num(r, p);
    p := Bytes(r, 4, p1);
    Stop(p, r);
    return r.failed;
  }

  /** Death protection carries a count of effects, which must be zero; a glider nothing. */
  method SkipDeathProtection(v: Version, r: Reader, d: nat) returns (err: bool)
    requires d <= COMPONENT_DEPTH
    modifies r
    ensures Did(v, NONE_OF, d, old(r.State()), old(r.steps), err, r)
  {
    hide On, OnAt, Run, Cost;
    ghost var p := Begin(v, NONE_OF, d, r);
    err, p := RequireNone(r, p);
    if err { return; }
    Stop(p, r);
    return r.failed;
  }

  // -------------------------------------------------------------------------- potions

  /** The potion id a potion_contents payload carries, whether or not the rest can be read. */
  function PotionAt(s: Stream): Option<int32> { if s.Peek(1) != 0 then Some(s.Skip(1).VarInt()) else None }

  method SkipPotionContents(v: Version, r: Reader, d: nat) returns (err: bool, potion: Option<int32>)
    requires d <= COMPONENT_DEPTH
    modifies r
    ensures Did(v, POTION_CONTENTS, d, old(r.State()), old(r.steps), err, r)
    ensures potion == PotionAt(old(r.State()))
  {
    hide On, OnAt, Run, Cost, Stream.VarInt, Stream.Peek, Stream.Skip;
    ghost var p := Begin(v, POTION_CONTENTS, d, r);
    potion := None;
    var b;
    b, p := Given(r, p);
    if b {
      var id, q := Num(r, p);
      p, potion := q, Some(id);
    }
    p := OptionalBytes(r, 4, p);
    err, p := RequireNone(r, p);
    if err { return; }
    err, p := RequireNone(r, p);
    if err { return; }
    Stop(p, r);
    err := r.failed;
  }

  // --------------------------------------------------------------------- nested stacks

  function NestedId(v: Version, s: Stream): int32 {
    if v.enc.nestedStacksCountFirst then s.AfterVarInt().VarInt() else s.VarInt()
  }

  /** What is left of a component list with k to go, of n begun at `s`. */
  ghost predicate AmongComponents(v: Version, d: nat, s: Stream, steps: nat, n: nat, k: nat, r: Reader)
    requires d <= COMPONENT_DEPTH + 1
    reads r
  {
    && RunComponents(v, k, d, r.State()) == RunComponents(v, n, d, s)
    && r.steps + ComponentsCost(v, k, d, r.State()) <= steps + ComponentsCost(v, n, d, s)
  }

  /** One component skipped, after its wire id. */
  ghost predicate DidComponent(v: Version, wire: int32, d: nat, s: Stream, steps: nat, err: bool, r: Reader)
    requires d <= COMPONENT_DEPTH + 1
    reads r
  {
    && Settled(err, r.State()) == RunComponent(v, wire, d, s) && r.steps <= steps + ComponentCost(v, wire, d, s)
    && (s.At? && r.State().Broken? ==> err)
  }

  lemma ComponentStep(v: Version, k: nat, d: nat, s: Stream)
    requires d <= COMPONENT_DEPTH + 1 && k > 0
    ensures var t := s.AfterVarInt();
            && RunComponents(v, k, d, s) == RunComponents(v, k - 1, d, RunComponent(v, s.VarInt(), d, t))
            && ComponentsCost(v, k, d, s)
            == 1 + ComponentCost(v, s.VarInt(), d, t) + ComponentsCost(v, k - 1, d, RunComponent(v, s.VarInt(), d, t))
    ensures RunComponents(v, k - 1, d, Broken) == Broken
  {
    ComponentsBroken(v, k - 1, d);
  }

  /** The added components of a stack, one level down. */
  method SkipAdded(v: Version, r: Reader, n: nat, d: nat) returns (err: bool)
    requires d <= COMPONENT_DEPTH + 1
    modifies r
    ensures Settled(err, r.State()) == RunComponents(v, n, d, old(r.State()))
    ensures r.steps <= old(r.steps) + ComponentsCost(v, n, d, old(r.State()))
    decreases COMPONENT_DEPTH + 1 - d, 5
  {
    hide RunComponents, ComponentsCost, RunComponent, ComponentCost, Stream.VarInt, Stream.AfterVarInt;
    ghost var s, steps := r.State(), r.steps;
    for i := 0 to n
      invariant AmongComponents(v, d, s, steps, n, n - i, r)
    {
      ComponentStep(v, n - i, d, r.State());
      var wire := r.VarInt();
      var potion;
      err, potion := SkipComponentAt(v, r, wire, d);
      if err { return; }
    }
    NoComponents(v, d, r.State());
    err := false;
  }

  lemma NoComponents(v: Version, d: nat, s: Stream)
    requires d <= COMPONENT_DEPTH + 1
    ensures RunComponents(v, 0, d, s) == s && ComponentsCost(v, 0, d, s) == 0
  {
  }

  lemma StackRule(v: Version, d: nat, s: Stream)
    requires d <= COMPONENT_DEPTH
    ensures var s1 := s.AfterVarInt().AfterVarInt();
            var s2 := AfterCount(s1);
            var s3 := AfterCount(s2);
            && Run(v, Stack, d, s) == AfterVarInts(RunComponents(v, ListCount(s1), d + 1, s3), ListCount(s2))
            && Cost(v, Stack, d, s) == 4 + ComponentsCost(v, ListCount(s1), d + 1, s3) + ListCount(s2)
            && RunComponents(v, ListCount(s1), d + 1, Broken) == Broken
            && AfterVarInts(Broken, ListCount(s2)) == Broken
  {
    hide RunComponents, ComponentsCost, AfterVarInts, ListCount, AfterCount, Stream.AfterVarInt;
    var s1 := s.AfterVarInt().AfterVarInt();
    ComponentsBroken(v, ListCount(s1), d + 1);
    VarIntsBroken(ListCount(AfterCount(s1)));
  }

  /** An item stack inside a component, and the item's id. */
  method SkipNestedStackAt(v: Version, r: Reader, d: nat) returns (id: int32, err: bool)
    requires d <= COMPONENT_DEPTH
    modifies r
    ensures Did(v, Stack, d, old(r.State()), old(r.steps), err, r) && id == NestedId(v, old(r.State()))
    ensures err <==> Run(v, Stack, d, old(r.State())).Broken?
    decreases COMPONENT_DEPTH + 1 - d, 1
  {
    hide Run, Cost, RunComponents, ComponentsCost, AfterVarInts, ListCount, AfterCount, Stream.VarInt,
      Stream.AfterVarInt;
    StackRule(v, d, r.State());
    if v.enc.nestedStacksCountFirst {
      var _ := r.VarInt();
      id := r.VarInt();
    } else {
      id := r.VarInt();
      var _ := r.VarInt();
    }
    var added := ListLen(r);
    var removed := ListLen(r);
    if r.failed { return id, true; }
    err := SkipAdded(v, r, added, d + 1);
    if err { return id, true; }
    SkipVarInts(r, removed);
    err := r.failed;
  }

  method SkipNestedStackList(v: Version, r: Reader, d: nat) returns (err: bool)
    requires d <= COMPONENT_DEPTH
    modifies r
    ensures Did(v, ListOf(Stack), d, old(r.State()), old(r.steps), err, r)
    decreases COMPONENT_DEPTH + 1 - d, 2
  {
    hide OnAt, Run, Cost;
    ghost var p := Begin(v, ListOf(Stack), d, r);
    var n;
    n, p := Count(r, p);
    ghost var list := p;
    for i := 0 to n
      invariant p == list.(todo := Loop(n - i, Stack, list.todo.more)) && On(p, r)
    {
      Unroll(p, r);
      p := p.Element();
      ghost var s, steps := r.State(), r.steps;
      var id;
      id, err := SkipNestedStackAt(v, r, d);
      ThroughAll(p, s, steps, err, r);
      p := p.(todo := p.todo.more);
      if err { return; }
    }
    Unroll(p, r);
    p := p.Past();
    Stop(p, r);
    return r.failed;
  }

  lemma SlotRule(v: Version, d: nat, s: Stream)
    requires d <= COMPONENT_DEPTH
    ensures s.Remaining() == [] ==> Run(v, Slot, d, s) == s && Cost(v, Slot, d, s) == 0
    ensures s.Remaining() != [] && s.Remaining()[0] == 0 ==> Run(v, Slot, d, s) == s.Skip(1) && Cost(v, Slot, d, s) == 1
    ensures s.Remaining() != [] && s.Remaining()[0] != 0
        ==> Run(v, Slot, d, s) == Run(v, Stack, d, s) && Cost(v, Slot, d, s) == Cost(v, Stack, d, s)
  {
    hide RunStack, StackCost;
  }

  /** Once the bytes run out, empty slots are all that a count-first container reads. */
  lemma {:induction false} SlotsIdle(v: Version, d: nat, k: nat, s: Stream)
    requires d <= COMPONENT_DEPTH && s.Remaining() == []
    ensures RunMany(v, Slot, k, d, s) == s && ManyCost(v, Slot, k, d, s) == 0
    decreases k
  {
    hide Run, Cost;
    SlotRule(v, d, s);
    if k > 0 { SlotsIdle(v, d, k - 1, s); }
  }

  lemma IdleSlots(p: Plan, r: Reader)
    requires On(p, r) && p.todo.Loop? && p.todo.e == Slot && r.State().Remaining() == []
    ensures On(p.Past(), r)
  {
    SlotsIdle(p.v, p.d, p.todo.k, r.State());
  }

  /** The slots of a container: count-first stacks with a bare zero for an empty slot, or a
      bool before each stack. A count-first list that runs out of bytes ends without error. */
  method SkipContainerContents(v: Version, r: Reader, d: nat) returns (err: bool)
    requires d <= COMPONENT_DEPTH
    modifies r
    ensures Did(v, ContainerContents(v.enc), d, old(r.State()), old(r.steps), err, r)
    decreases COMPONENT_DEPTH + 1 - d, 2
  {
    if v.enc.nestedStacksCountFirst { err := SkipSlots(v, r, d); } else { err := SkipFlaggedSlots(v, r, d); }
  }

  method SkipSlots(v: Version, r: Reader, d: nat) returns (err: bool)
    requires d <= COMPONENT_DEPTH
    modifies r
    ensures Did(v, ListOf(Slot), d, old(r.State()), old(r.steps), err, r)
    decreases COMPONENT_DEPTH + 1 - d, 2, 0
  {
    hide OnAt, Run, Cost;
    ghost var p := Begin(v, ListOf(Slot), d, r);
    var n;
    n, p := Count(r, p);
    ghost var list := p;
    for i := 0 to n
      invariant p == list.(todo := Loop(n - i, Slot, list.todo.more)) && On(p, r)
    {
      if r.State().Remaining() == [] {
        IdleSlots(p, r);
        Stop(p.Past(), r);
        return r.failed;
      }
      Unroll(p, r);
      p := p.Element();
      ghost var s, steps := r.State(), r.steps;
      SlotRule(v, d, s);
      if r.State().Remaining()[0] == 0 {
        r.Skip(1);
        err := false;
      } else {
        var id;
        id, err := SkipNestedStackAt(v, r, d);
      }
      ThroughAll(p, s, steps, err, r);
      p := p.(todo := p.todo.more);
      if err { return; }
    }
    Unroll(p, r);
    p := p.Past();
    Stop(p, r);
    return r.failed;
  }

  method SkipFlaggedSlots(v: Version, r: Reader, d: nat) returns (err: bool)
    requires d <= COMPONENT_DEPTH
    modifies r
    ensures Did(v, ListOf(Optional(Stack)), d, old(r.State()), old(r.steps), err, r)
    decreases COMPONENT_DEPTH + 1 - d, 2, 0
  {
    hide OnAt, Run, Cost;
    ghost var p := Begin(v, ListOf(Optional(Stack)), d, r);
    var n;
    n, p := Count(r, p);
    ghost var list := p;
    for i := 0 to n
      invariant p == list.(todo := Loop(n - i, Optional(Stack), list.todo.more)) && On(p, r)
    {
      Unroll(p, r);
      var b;
      b, p := Given(r, p.Element());
      if b {
        ghost var s, steps := r.State(), r.steps;
        var id;
        id, err := SkipNestedStackAt(v, r, d);
        ThroughAll(p, s, steps, err, r);
        p := p.(todo := p.todo.more);
        if err { return; }
      }
    }
    Unroll(p, r);
    p := p.Past();
    Stop(p, r);
    return r.failed;
  }

  // --------------------------------------------------------------------------- dispatch

  /** One component, after its wire id: its payload, and the potion it carries if any. */
  method SkipComponentAt(v: Version, r: Reader, wire: int32, d: nat) returns (err: bool, potion: Option<int32>)
    requires d <= COMPONENT_DEPTH + 1
    modifies r
    ensures DidComponent(v, wire, d, old(r.State()), old(r.steps), err, r)
    ensures potion
         == if d <= COMPONENT_DEPTH && CanonicalComponent(v, wire) == Some(51) then PotionAt(old(r.State())) else None
    decreases COMPONENT_DEPTH + 1 - d, 4
  {
    hide Run, Cost, PotionAt;
    potion := None;
    if d > COMPONENT_DEPTH { return true, None; }
    var kind := CanonicalComponent(v, wire);
    if kind == None { return true, None; }
    if kind.value == 51 {
      err, potion := SkipPotionContents(v, r, d);
    } else {
      hide ComponentShape;
      err := SkipPlainComponent(v, r, kind.value, d);
    }
  }

  method SkipPlainComponent(v: Version, r: Reader, kind: int32, d: nat) returns (err: bool)
    requires d <= COMPONENT_DEPTH && kind != 51
    modifies r
    ensures Did(v, ComponentShape(v.enc, kind), d, old(r.State()), old(r.steps), err, r)
    decreases COMPONENT_DEPTH + 1 - d, 3, 1
  {
    hide Did, StructuredShape, FlaggedHolder, TagName, EntityData;
    match kind
    case 4 => err := SkipNothing(v, r, d);
    case 1 => err := SkipNumber(v, r, d);
    case 2 => err := SkipNumber(v, r, d);
    case 3 => err := SkipNumber(v, r, d);
    case 12 => err := SkipNumber(v, r, d);
    case 19 => err := SkipNumber(v, r, d);
    case 31 => err := SkipNumber(v, r, d);
    case 46 => err := SkipNumber(v, r, d);
    case 44 => err := SkipBytes(v, 4, r, d);
    case 45 => err := SkipBytes(v, 4, r, d);
    case 0 => err := SkipTag(v, r, d);
    case 6 => err := SkipTag(v, r, d);
    case 9 => err := SkipTag(v, r, d);
    case 22 => err := SkipTag(v, r, d);
    case 47 => err := SkipTag(v, r, d);
    case 57 => err := SkipTag(v, r, d);
    case 59 => err := SkipTag(v, r, d);
    case 66 => err := SkipTag(v, r, d);
    case 78 => err := SkipTag(v, r, d);
    case 79 => err := SkipTag(v, r, d);
    case 40 => err := SkipTwoNumbers(v, r, d);
    case 5 => err := SkipUseEffects(v, r, d);
    case 21 => err := SkipBytes(v, 1, r, d);
    case 7 => err := SkipBytes(v, 4, r, d);
    case 52 => err := SkipBytes(v, 4, r, d);
    case 10 => err := SkipText(v, r, d);
    case 35 => err := SkipText(v, r, d);
    case 71 => err := SkipText(v, r, d);
    case 43 => err := SkipNumber(v, r, d);
    case 63 => err := SkipNumber(v, r, d);
    case 73 => err := SkipNumber(v, r, d);
    case 80 => err := SkipHolderOnly(v, r, d);
    case 8 => err := SkipFlaggedHolder(v, r, d);
    case 61 => err := SkipFlaggedHolder(v, r, d);
    case 62 => err := SkipFlaggedHolder(v, r, d);
    case 64 => err := SkipFlaggedHolder(v, r, d);
    case 33 => err := SkipIdSetOnly(v, r, d);
    case 27 => err := SkipTagName(v, r, d);
    case 65 => err := SkipTagName(v, r, d);
    case 58 => err := SkipEntityData(v, r, d);
    case 60 => err := SkipEntityData(v, r, d);
    case _ => err := SkipShapedComponent(v, r, kind, d);
  }

  method SkipNothing(v: Version, r: Reader, d: nat) returns (err: bool)
    requires d <= COMPONENT_DEPTH
    modifies r
    ensures Did(v, Empty, d, old(r.State()), old(r.steps), err, r)
  {
    err := false;
  }

  method SkipShapedComponent(v: Version, r: Reader, kind: int32, d: nat) returns (err: bool)
    requires d <= COMPONENT_DEPTH
    modifies r
    ensures Did(v, StructuredShape(v.enc, kind), d, old(r.State()), old(r.steps), err, r)
    decreases COMPONENT_DEPTH + 1 - d, 3, 0
  {
    hide Did, BlockPredicates, Equippable, BlocksAttacks, Bee, Trim, ContainerContents, Profile, EntityVariant;
    match kind
    case 14 => err := SkipBlockPredicates(v, r, d);
    case 15 => err := SkipBlockPredicates(v, r, d);
    case 18 => err := SkipTooltipDisplay(v, r, d);
    case 23 => err := SkipFood(v, r, d);
    case 24 => err := SkipConsumable(v, r, d);
    case 110 => var id; id, err := SkipNestedStackAt(v, r, d);
    case 25 => var id; id, err := SkipNestedStackAt(v, r, d);
    case 26 => err := SkipUseCooldown(v, r, d);
    case 28 => err := SkipTool(v, r, d);
    case 29 => err := SkipWeapon(v, r, d);
    case 30 => err := SkipBytes(v, 24, r, d);
    case 32 => err := SkipEquippable(v, r, d);
    case 34 => err := SkipNothing(v, r, d);
    case 36 => err := SkipDeathProtection(v, r, d);
    case 37 => err := SkipBlocksAttacks(v, r, d);
    case 77 => err := SkipBees(v, r, d);
    case 38 => err := SkipPiercingWeapon(v, r, d);
    case 39 => err := SkipKineticWeapon(v, r, d);
    case 56 => err := SkipTrim(v, r, d);
    case 75 => err := SkipContainerContents(v, r, d);
    case 68 => err := SkipFireworkExplosion(v, r, d);
    case 16 => err := SkipAttributeModifiers(v, r, d);
    case 67 => err := SkipLodestoneTracker(v, r, d);
    case 70 => err := SkipProfile(v, r, d);
    case 55 => err := SkipWrittenBook(v, r, d);
    case 11 => err := SkipNbtList(v, r, d);
    case 17 => err := SkipCustomModelData(v, r, d);
    case 74 => err := SkipVarIntList(v, r, d);
    case 76 => err := SkipStringPairs(v, r, d);
    case 72 => err := SkipBannerPatterns(v, r, d);
    case 49 => err := SkipNestedStackList(v, r, d);
    case 50 => err := SkipNestedStackList(v, r, d);
    case 69 => err := SkipFireworks(v, r, d);
    case 54 => err := SkipWritableBook(v, r, d);
    case 13 => err := SkipVarIntPairs(v, r, d);
    case 42 => err := SkipVarIntPairs(v, r, d);
    case 53 => err := SkipVarIntPairs(v, r, d);
    case _ => err := SkipEntityVariant(v, r, kind, d);
  }
}
