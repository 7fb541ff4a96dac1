/** The component skippers of more than one field (`understudy/components.go`), one a shape.
Each follows its shape field by field; a plan records what is still to be read. */
module Skippers {
  import opened Words
  import opened Wire
  import opened Shapes
  import opened ShapeCost
  import opened Plans
  import opened FieldSkippers

  // ------------------------------------------------------------- lists of one field

  /** A count, then that many four-byte words: colours, or floats. */
  method SkipColours(r: Reader, ghost p: Plan) returns (ghost q: Plan)
    requires On(p, r) && p.todo.Do? && p.Now() == ListOf(Fixed(4))
    modifies r
    ensures q == p.Next() && On(q, r)
  {
    hide On, OnAt;
    var n;
    n, q := Count(r, p);
    ghost var list := q;
    for i := 0 to n
      invariant q == list.(todo := Loop(n - i, Fixed(4), list.todo.more)) && On(q, r)
    {
      Unroll(q, r);
      q := Bytes(r, 4, q.Element());
    }
    Unroll(q, r);
    q := q.Past();
  }

  /** A count, then that many bools. */
  method SkipFlags(r: Reader, ghost p: Plan) returns (ghost q: Plan)
    requires On(p, r) && p.todo.Do? && p.Now() == ListOf(FLAG)
    modifies r
    ensures q == p.Next() && On(q, r)
  {
    hide On, OnAt;
    var n;
    n, q := Count(r, p);
    ghost var list := q;
    for i := 0 to n
      invariant q == list.(todo := Loop(n - i, FLAG, list.todo.more)) && On(q, r)
    {
      Unroll(q, r);
      q := Bytes(r, 1, q.Element());
    }
    Unroll(q, r);
    q := q.Past();
  }

  /** A count, then that many strings. */
  method SkipTexts(r: Reader, ghost p: Plan) returns (ghost q: Plan)
    requires On(p, r) && p.todo.Do? && p.Now() == ListOf(Text)
    modifies r
    ensures q == p.Next() && On(q, r)
  {
    hide On, OnAt;
    var n;
    n, q := Count(r, p);
    ghost var list := q;
    for i := 0 to n
      invariant q == list.(todo := Loop(n - i, Text, list.todo.more)) && On(q, r)
    {
      Unroll(q, r);
      q := Str(r, q.Element());
    }
    Unroll(q, r);
    q := q.Past();
  }

  // ------------------------------------------------------------------------ equipment

  method SkipTool(v: Version, r: Reader, d: nat) returns (err: bool)
    requires d <= COMPONENT_DEPTH
    modifies r
    ensures Did(v, TOOL, d, old(r.State()), old(r.steps), err, r)
  {
    hide On, OnAt, Run, Cost;
    ghost var p := Begin(v, TOOL, d, r);
    var n;
    n, p := Count(r, p);
    ghost var list := p;
    for i := 0 to n
      invariant p == list.(todo := Loop(n - i, TOOL_RULE, list.todo.more)) && On(p, r)
    {
      Unroll(p, r);
      p := p.Element();
      p := SkipIdSet(r, p);
      p := OptionalBytes(r, 4, p);
      p := OptionalBytes(r, 1, p);
    }
    Unroll(p, r);
    p := p.Past();
    p := Bytes(r, 4, p);
    var _, p1 := Num(r, p);
    p := Bytes(r, 1, p1);
    Stop(p, r);
    return r.failed;
  }

  method SkipConsumable(v: Version, r: Reader, d: nat) returns (err: bool)
    requires d <= COMPONENT_DEPTH
    modifies r
    ensures Did(v, CONSUMABLE, d, old(r.State()), old(r.steps), err, r)
  {
    hide On, OnAt, Run, Cost;
    ghost var p := Begin(v, CONSUMABLE, d, r);
    p := Bytes(r, 4, p);
    var _, p1 := Num(r, p);
    err, p := SkipHolder(r, p1);
    if err { return; }
    p := Bytes(r, 1, p);
    err, p := RequireNone(r, p);
    if err { return; }
    Stop(p, r);
    return r.failed;
  }

  method SkipEquippable(v: Version, r: Reader, d: nat) returns (err: bool)
    requires d <= COMPONENT_DEPTH
    modifies r
    ensures Did(v, Equippable(v.enc), d, old(r.State()), old(r.steps), err, r)
  {
    hide On, OnAt, Run, Cost;
    ghost var p := Begin(v, Equippable(v.enc), d, r);
    var _, p1 := Num(r, p);
    err, p := SkipHolder(r, p1);
    if err { return; }
    p := OptionalText(r, p);
    p := OptionalText(r, p);
    var b;
    b, p := Given(r, p);
    if b { p := SkipIdSet(r, p); }
    if v.enc.equippableHasNoShearing {
      p := Bytes(r, 3, p);
      Stop(p, r);
      return r.failed;
    }
    p := Bytes(r, 5, p);
    err, p := SkipHolder(r, p);
    if err { return; }
    Stop(p, r);
    return r.failed;
  }

  method SkipBlocksAttacks(v: Version, r: Reader, d: nat) returns (err: bool)
    requires d <= COMPONENT_DEPTH
    modifies r
    ensures Did(v, BlocksAttacks(v.enc), d, old(r.State()), old(r.steps), err, r)
  {
    hide On, OnAt, Run, Cost;
    ghost var p := Begin(v, BlocksAttacks(v.enc), d, r);
    p := Bytes(r, 4, p);
    p := Bytes(r, 4, p);
    err, p := RequireNone(r, p);
    if err { return; }
    p := Bytes(r, 4, p);
    p := Bytes(r, 4, p);
    p := Bytes(r, 4, p);
    var b;
    b, p := Given(r, p);
    if b {
      if v.enc.tagsAreBareStrings { p := Str(r, p); } else { p := SkipIdSet(r, p); }
    }
    err, p := OptionalHolder(r, p);
    if err { return; }
    err, p := OptionalHolder(r, p);
    if err { return; }
    Stop(p, r);
    return r.failed;
  }

  method SkipPiercingWeapon(v: Version, r: Reader, d: nat) returns (err: bool)
    requires d <= COMPONENT_DEPTH
    modifies r
    ensures Did(v, PIERCING_WEAPON, d, old(r.State()), old(r.steps), err, r)
  {
    hide On, OnAt, Run, Cost;
    ghost var p := Begin(v, PIERCING_WEAPON, d, r);
    var _, p1 := Num(r, p);
    var _, p2 := Num(r, p1);
    err, p := OptionalHolder(r, p2);
    if err { return; }
    err, p := OptionalHolder(r, p);
    if err { return; }
    Stop(p, r);
    return r.failed;
  }

  method SkipCondition(r: Reader, ghost p: Plan) returns (ghost q: Plan)
    requires On(p, r) && p.todo.Do? && p.Now() == CONDITION
    modifies r
    ensures q == p.Next() && On(q, r)
  {
    hide On, OnAt;
    var b;
    b, q := Given(r, p);
    if b {
      var _, q1 := Num(r, q);
      q := Bytes(r, 4, q1);
      q := Bytes(r, 4, q);
    }
  }

  method SkipKineticWeapon(v: Version, r: Reader, d: nat) returns (err: bool)
    requires d <= COMPONENT_DEPTH
    modifies r
    ensures Did(v, KINETIC_WEAPON, d, old(r.State()), old(r.steps), err, r)
  {
    hide On, OnAt, Run, Cost;
    ghost var p := Begin(v, KINETIC_WEAPON, d, r);
    var _, p1 := Num(r, p);
    var _, p2 := Num(r, p1);
    p := SkipCondition(r, p2);
    p := SkipCondition(r, p);
    p := SkipCondition(r, p);
    p := Bytes(r, 4, p);
    p := Bytes(r, 4, p);
    err, p := OptionalHolder(r, p);
    if err { return; }
    err, p := OptionalHolder(r, p);
    if err { return; }
    Stop(p, r);
    return r.failed;
  }

  method SkipTrim(v: Version, r: Reader, d: nat) returns (err: bool)
    requires d <= COMPONENT_DEPTH
    modifies r
    ensures Did(v, Trim(v.enc), d, old(r.State()), old(r.steps), err, r)
  {
    hide On, OnAt, Run, Cost;
    ghost var p := Begin(v, Trim(v.enc), d, r);
    err, p := SkipHolder(r, p);
    if err { return; }
    err, p := SkipHolder(r, p);
    if err { return; }
    if v.enc.trimHasTooltipFlag { p := Bytes(r, 1, p); } else { Vanish(p, r); p := p.Next(); }
    Stop(p, r);
    return r.failed;
  }

  method SkipAttributeModifiers(v: Version, r: Reader, d: nat) returns (err: bool)
    requires d <= COMPONENT_DEPTH
    modifies r
    ensures Did(v, ListOf(ATTRIBUTE_MODIFIER), d, old(r.State()), old(r.steps), err, r)
  {
    hide On, OnAt, Run, Cost;
    ghost var p := Begin(v, ListOf(ATTRIBUTE_MODIFIER), d, r);
    var n;
    n, p := Count(r, p);
    ghost var list := p;
    for i := 0 to n
      invariant p == list.(todo := Loop(n - i, ATTRIBUTE_MODIFIER, list.todo.more)) && On(p, r)
    {
      Unroll(p, r);
      p := p.Element();
      var _, p1 := Num(r, p);
      p := Str(r, p1);
      p := Bytes(r, 8, p);
      var _, p2 := Num(r, p);
      var _, p3 := Num(r, p2);
      var mode;
      mode, p := Choice(r, p3);
      if mode == 2 {
        err, p := SkipNbt(r, p);
        if err { return; }
      } else {
        Vanish(p, r);
        p := p.Next();
      }
    }
    Unroll(p, r);
    p := p.Past();
    Stop(p, r);
    return r.failed;
  }

  // ---------------------------------------------------------------- blocks and creatures

  /** One predicate of a block predicate list. */
  method SkipBlockPredicate(v: Version, r: Reader, ghost p: Plan) returns (err: bool, ghost q: Plan)
    requires On(p, r) && p.todo.Do? && p.todo.sh == BlockPredicate(v.enc)
    modifies r
    ensures q == p.(todo := p.todo.more) && Ended(q, err, r)
  {
    hide On, OnAt;
    var b;
    b, q := Given(r, p);
    if b { q := SkipIdSet(r, q); }
    b, q := Given(r, q);
    if b {
      Refused(q, r);
      return true, p.(todo := p.todo.more);
    }
    b, q := Given(r, q);
    if b {
      err, q := SkipNbt(r, q);
      if err { return true, p.(todo := p.todo.more); }
    }
    if v.enc.legacyBlockPredicates {
      Vanish(q, r);
      return false, q.Next();
    }
    err, q := RequireNone(r, q);
    if err { return true, p.(todo := p.todo.more); }
    err, q := RequireNone(r, q);
  }

  method SkipBlockPredicates(v: Version, r: Reader, d: nat) returns (err: bool)
    requires d <= COMPONENT_DEPTH
    modifies r
    ensures Did(v, BlockPredicates(v.enc), d, old(r.State()), old(r.steps), err, r)
  {
    hide On, OnAt, Run, Cost;
    ghost var p := Begin(v, BlockPredicates(v.enc), d, r);
    var n;
    n, p := Count(r, p);
    ghost var list := p;
    for i := 0 to n
      invariant p == list.(todo := Loop(n - i, BlockPredicate(v.enc), list.todo.more)) && On(p, r)
    {
      Unroll(p, r);
      p := p.Element();
      err, p := SkipBlockPredicate(v, r, p);
      if err { return; }
    }
    Unroll(p, r);
    p := p.Past();
    if v.enc.legacyBlockPredicates { p := Bytes(r, 1, p); } else { Vanish(p, r); p := p.Next(); }
    Stop(p, r);
    return r.failed;
  }

  method SkipBees(v: Version, r: Reader, d: nat) returns (err: bool)
    requires d <= COMPONENT_DEPTH
    modifies r
    ensures Did(v, ListOf(Bee(v.enc)), d, old(r.State()), old(r.steps), err, r)
  {
    hide On, OnAt, Run, Cost;
    ghost var p := Begin(v, ListOf(Bee(v.enc)), d, r);
    var n;
    n, p := Count(r, p);
    ghost var list := p;
    for i := 0 to n
      invariant p == list.(todo := Loop(n - i, Bee(v.enc), list.todo.more)) && On(p, r)
    {
      Unroll(p, r);
      p := p.Element();
      if !v.enc.entityDataKeepsTypeInNbt {
        Open(p, r);
        p := p.Opened();
        var _, p0 := Num(r, p);
        p := p0;
      }
      err, p := SkipNbt(r, p);
      if err { return; }
      var _, p1 := Num(r, p);
      var _, p2 := Num(r, p1);
      p := p2;
    }
    Unroll(p, r);
    p := p.Past();
    Stop(p, r);
    return r.failed;
  }

  method SkipEntityVariant(v: Version, r: Reader, kind: int32, d: nat) returns (err: bool)
    requires d <= COMPONENT_DEPTH
    modifies r
    ensures Did(v, EntityVariant(v.enc, kind), d, old(r.State()), old(r.steps), err, r)
  {
    hide On, OnAt, Run, Cost;
    ghost var p := Begin(v, EntityVariant(v.enc, kind), d, r);
    if kind < 81 || kind > 109 {
      Refused(p, r);
      return true;
    }
    if (kind == 97 || kind == 99) && v.enc.registryRefsHaveLeadingFlag {
      err, p := SkipFlag(r, p);
      if err { return; }
    }
    var _, p1 := Num(r, p);
    p := p1;
    Stop(p, r);
    return r.failed;
  }

  // --------------------------------------------------------------- books, heads, fireworks

  method SkipFireworkExplosion(v: Version, r: Reader, d: nat) returns (err: bool)
    requires d <= COMPONENT_DEPTH
    modifies r
    ensures Did(v, FIREWORK_EXPLOSION, d, old(r.State()), old(r.steps), err, r)
  {
    hide On, OnAt, Run, Cost;
    ghost var p := Begin(v, FIREWORK_EXPLOSION, d, r);
    var _, p1 := Num(r, p);
    p := SkipColours(r, p1);
    p := SkipColours(r, p);
    p := Bytes(r, 1, p);
    p := Bytes(r, 1, p);
    Stop(p, r);
    return r.failed;
  }

  method SkipFireworks(v: Version, r: Reader, d: nat) returns (err: bool)
    requires d <= COMPONENT_DEPTH
    modifies r
    ensures Did(v, FIREWORKS, d, old(r.State()), old(r.steps), err, r)
  {
    hide OnAt, Run, Cost;
    ghost var p := Begin(v, FIREWORKS, d, r);
    var _, p1 := Num(r, p);
    p := p1;
    var n;
    n, p := Count(r, p);
    ghost var list := p;
    for i := 0 to n
      invariant p == list.(todo := Loop(n - i, FIREWORK_EXPLOSION, list.todo.more)) && On(p, r)
    {
      Unroll(p, r);
      p := p.Element();
      ghost var s, steps := r.State(), r.steps;
      err := SkipFireworkExplosion(v, r, d);
      ThroughAll(p, s, steps, err, r);
      p := p.(todo := p.todo.more);
      if err { return; }
    }
    Unroll(p, r);
    p := p.Past();
    Stop(p, r);
    return r.failed;
  }

  method SkipNameAndUuid(r: Reader, ghost p: Plan) returns (ghost q: Plan)
    requires On(p, r) && p.todo.Do? && p.todo.sh == NAME_AND_UUID
    modifies r
    ensures q == p.(todo := p.todo.more) && On(q, r)
  {
    hide On, OnAt;
    q := OptionalText(r, p);
    q := OptionalBytes(r, 16, q);
  }

  method SkipProfileProperties(r: Reader, trailing: bool, ghost p: Plan) returns (err: bool, ghost q: Plan)
    requires On(p, r) && p.todo.Do? && p.todo.sh == ProfileProperties(trailing)
    modifies r
    ensures q == p.(todo := p.todo.more) && Ended(q, err, r) && (r.failed ==> err)
  {
    hide On, OnAt;
    var n;
    n, q := Count(r, p);
    ghost var list := q;
    for i := 0 to n
      invariant q == list.(todo := Loop(n - i, PROFILE_PROPERTY, list.todo.more)) && On(q, r)
    {
      Unroll(q, r);
      q := Str(r, q.Element());
      q := Str(r, q);
      q := OptionalText(r, q);
    }
    Unroll(q, r);
    q := q.Past();
    if !trailing {
      Vanish(q, r);
      q := q.Next();
      Stop(q, r);
      return r.failed, q;
    }
    for i := 0 to 4
      invariant q == list.(todo := TrailingFields(4 - i, p.todo.more)) && On(q, r)
    {
      var given;
      given, q := Given(r, q);
      if given {
        Refused(q, r);
        return true, p.(todo := p.todo.more);
      }
    }
    Stop(q, r);
    err := r.failed;
  }

  ghost function TrailingFields(k: nat, more: Todo): Todo
    requires k <= 4
  {
    if k == 0 then more
    else if k == 1 then Do(UNSEEN, more)
    else if k == 2 then Do(Seq(UNSEEN, UNSEEN), more)
    else if k == 3 then Do(Seq(UNSEEN, Seq(UNSEEN, UNSEEN)), more)
    else Do(Seq(UNSEEN, Seq(UNSEEN, Seq(UNSEEN, UNSEEN))), more)
  }

  method SkipProfile(v: Version, r: Reader, d: nat) returns (err: bool)
    requires d <= COMPONENT_DEPTH
    modifies r
    ensures Did(v, Profile(v.enc), d, old(r.State()), old(r.steps), err, r)
  {
    hide On, OnAt, Run, Cost;
    ghost var p := Begin(v, Profile(v.enc), d, r);
    if v.enc.profileHasNoVariantTag {
      Open(p, r);
      p := SkipNameAndUuid(r, p.Opened());
      err, p := SkipProfileProperties(r, false, p);
      if !err { Stop(p, r); }
      return;
    }
    var n;
    n, p := Choice(r, p);
    if n == 0 {
      p := SkipNameAndUuid(r, p);
    } else {
      p := Bytes(r, 16, p);
      p := Str(r, p);
    }
    err, p := SkipProfileProperties(r, true, p);
    if !err { Stop(p, r); }
  }

  method SkipWrittenBook(v: Version, r: Reader, d: nat) returns (err: bool)
    requires d <= COMPONENT_DEPTH
    modifies r
    ensures Did(v, WRITTEN_BOOK, d, old(r.State()), old(r.steps), err, r)
  {
    hide On, OnAt, Run, Cost;
    ghost var p := Begin(v, WRITTEN_BOOK, d, r);
    p := Str(r, p);
    p := OptionalText(r, p);
    p := Str(r, p);
    var _, p1 := Num(r, p);
    p := p1;
    var n;
    n, p := Count(r, p);
    ghost var list := p;
    for i := 0 to n
      invariant p == list.(todo := Loop(n - i, WRITTEN_PAGE, list.todo.more)) && On(p, r)
    {
      Unroll(p, r);
      p := p.Element();
      err, p := SkipNbt(r, p);
      if err { return; }
      var b;
      b, p := Given(r, p);
      if b {
        err, p := SkipNbt(r, p);
        if err { return; }
      }
    }
    Unroll(p, r);
    p := p.Past();
    p := Bytes(r, 1, p);
    Stop(p, r);
    return r.failed;
  }

  method SkipLodestoneTracker(v: Version, r: Reader, d: nat) returns (err: bool)
    requires d <= COMPONENT_DEPTH
    modifies r
    ensures Did(v, LODESTONE_TRACKER, d, old(r.State()), old(r.steps), err, r)
  {
    hide On, OnAt, Run, Cost;
    ghost var p := Begin(v, LODESTONE_TRACKER, d, r);
    var b;
    b, p := Given(r, p);
    if b {
      p := Str(r, p);
      p := Bytes(r, 8, p);
    }
    p := Bytes(r, 1, p);
    Stop(p, r);
    return r.failed;
  }

  // ------------------------------------------------------------------------ plain lists

  method SkipNbtList(v: Version, r: Reader, d: nat) returns (err: bool)
    requires d <= COMPONENT_DEPTH
    modifies r
    ensures Did(v, ListOf(Tag), d, old(r.State()), old(r.steps), err, r)
  {
    hide On, OnAt, Run, Cost;
    ghost var p := Begin(v, ListOf(Tag), d, r);
    var n;
    n, p := Count(r, p);
    ghost var list := p;
    for i := 0 to n
      invariant p == list.(todo := Loop(n - i, Tag, list.todo.more)) && On(p, r)
    {
      Unroll(p, r);
      p := p.Element();
      err, p := SkipNbt(r, p);
      if err { return; }
    }
    Unroll(p, r);
    p := p.Past();
    Stop(p, r);
    return r.failed;
  }

  method SkipVarIntList(v: Version, r: Reader, d: nat) returns (err: bool)
    requires d <= COMPONENT_DEPTH
    modifies r
    ensures Did(v, ListOf(VarInt), d, old(r.State()), old(r.steps), err, r)
  {
    hide On, OnAt, Run, Cost;
    ghost var p := Begin(v, ListOf(VarInt), d, r);
    var n;
    n, p := Count(r, p);
    ghost var list := p;
    for i := 0 to n
      invariant p == list.(todo := Loop(n - i, VarInt, list.todo.more)) && On(p, r)
    {
      Unroll(p, r);
      p := p.Element();
      var _, p1 := Num(r, p);
      p := p1;
    }
    Unroll(p, r);
    p := p.Past();
    Stop(p, r);
    return r.failed;
  }

  method SkipTooltipDisplay(v: Version, r: Reader, d: nat) returns (err: bool)
    requires d <= COMPONENT_DEPTH
    modifies r
    ensures Did(v, Seq(FLAG, ListOf(VarInt)), d, old(r.State()), old(r.steps), err, r)
  {
    hide OnAt, Run, Cost;
    ghost var p := Begin(v, Seq(FLAG, ListOf(VarInt)), d, r);
    p := Bytes(r, 1, p);
    ghost var s, steps := r.State(), r.steps;
    err := SkipVarIntList(v, r, d);
    ThroughAll(p, s, steps, err, r);
    p := p.(todo := p.todo.more);
    if !err { Stop(p, r); }
  }

  method SkipVarIntPairs(v: Version, r: Reader, d: nat) returns (err: bool)
    requires d <= COMPONENT_DEPTH
    modifies r
    ensures Did(v, VAR_INT_PAIRS, d, old(r.State()), old(r.steps), err, r)
  {
    hide On, OnAt, Run, Cost;
    ghost var p := Begin(v, VAR_INT_PAIRS, d, r);
    var n;
    n, p := Count(r, p);
    ghost var list := p;
    for i := 0 to n
      invariant p == list.(todo := Loop(n - i, Seq(VarInt, VarInt), list.todo.more)) && On(p, r)
    {
      Unroll(p, r);
      p := p.Element();
      var _, p1 := Num(r, p);
      var _, p2 := Num(r, p1);
      p := p2;
    }
    Unroll(p, r);
    p := p.Past();
    Stop(p, r);
    return r.failed;
  }

  method SkipStringPairs(v: Version, r: Reader, d: nat) returns (err: bool)
    requires d <= COMPONENT_DEPTH
    modifies r
    ensures Did(v, ListOf(Seq(Text, Text)), d, old(r.State()), old(r.steps), err, r)
  {
    hide On, OnAt, Run, Cost;
    ghost var p := Begin(v, ListOf(Seq(Text, Text)), d, r);
    var n;
    n, p := Count(r, p);
    ghost var list := p;
    for i := 0 to n
      invariant p == list.(todo := Loop(n - i, Seq(Text, Text), list.todo.more)) && On(p, r)
    {
      Unroll(p, r);
      p := p.Element();
      p := Str(r, p);
      p := Str(r, p);
    }
    Unroll(p, r);
    p := p.Past();
    Stop(p, r);
    return r.failed;
  }

  method SkipBannerPatterns(v: Version, r: Reader, d: nat) returns (err: bool)
    requires d <= COMPONENT_DEPTH
    modifies r
    ensures Did(v, ListOf(Seq(HOLDER, VarInt)), d, old(r.State()), old(r.steps), err, r)
  {
    hide On, OnAt, Run, Cost;
    ghost var p := Begin(v, ListOf(Seq(HOLDER, VarInt)), d, r);
    var n;
    n, p := Count(r, p);
    ghost var list := p;
    for i := 0 to n
      invariant p == list.(todo := Loop(n - i, Seq(HOLDER, VarInt), list.todo.more)) && On(p, r)
    {
      Unroll(p, r);
      p := p.Element();
      err, p := SkipHolder(r, p);
      if err { return; }
      var _, p1 := Num(r, p);
      p := p1;
    }
    Unroll(p, r);
    p := p.Past();
    Stop(p, r);
    return r.failed;
  }

  method SkipWritableBook(v: Version, r: Reader, d: nat) returns (err: bool)
    requires d <= COMPONENT_DEPTH
    modifies r
    ensures Did(v, WRITABLE_BOOK, d, old(r.State()), old(r.steps), err, r)
  {
    hide On, OnAt, Run, Cost;
    ghost var p := Begin(v, WRITABLE_BOOK, d, r);
    var n;
    n, p := Count(r, p);
    ghost var list := p;
    for i := 0 to n
      invariant p == list.(todo := Loop(n - i, Seq(Text, Optional(Text)), list.todo.more)) && On(p, r)
    {
      Unroll(p, r);
      p := p.Element();
      p := Str(r, p);
      p := OptionalText(r, p);
    }
    Unroll(p, r);
    p := p.Past();
    Stop(p, r);
    return r.failed;
  }

  method SkipCustomModelData(v: Version, r: Reader, d: nat) returns (err: bool)
    requires d <= COMPONENT_DEPTH
    modifies r
    ensures Did(v, CUSTOM_MODEL_DATA, d, old(r.State()), old(r.steps), err, r)
  {
    hide On, OnAt, Run, Cost;
    ghost var p := Begin(v, CUSTOM_MODEL_DATA, d, r);
    p := SkipColours(r, p);
    p := SkipFlags(r, p);
    p := SkipTexts(r, p);
    p := SkipColours(r, p);
    Stop(p, r);
    return r.failed;
  }
}
