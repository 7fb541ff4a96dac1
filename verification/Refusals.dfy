/** Where stepping over a component is given up (`understudy/components.go`): a registry entry
defined inline, effects, block states and matchers, fields never seen set, and ids without a
known payload. Each is an error, whatever follows. */
module Refusals {
  import opened Words
  import opened Wire
  import opened Shapes
  import opened ShapeCodec
  import opened Payloads
  import Nbt

  /** The shape gives up on these bytes, whatever follows. */
  ghost predicate Refuses(v: Version, sh: Shape, d: nat, bs: bytes)
    requires d <= COMPONENT_DEPTH
  {
    forall rest: bytes {:trigger bs + rest} :: Run(v, sh, d, At(bs + rest)) == Broken
  }

  lemma SeqRun(v: Version, d: nat, a: Shape, b: Shape, s: Stream)
    requires d <= COMPONENT_DEPTH
    ensures Run(v, Seq(a, b), d, s) == Run(v, b, d, Run(v, a, d, s))
  {
  }

  lemma FirstRefuses(v: Version, d: nat, a: Shape, b: Shape, x: bytes, y: bytes)
    requires d <= COMPONENT_DEPTH && Refuses(v, a, d, x)
    ensures Refuses(v, Seq(a, b), d, x + y)
  {
    hide Run;
    RunBroken(v, b, d);
    forall rest: bytes ensures Run(v, Seq(a, b), d, At(x + y + rest)) == Broken {
      assert x + y + rest == x + (y + rest);
      SeqRun(v, d, a, b, At(x + y + rest));
    }
  }

  lemma ThenRefuses(v: Version, d: nat, a: Shape, b: Shape, x: bytes, y: bytes)
    requires d <= COMPONENT_DEPTH && Skips(v, a, d, x) && Refuses(v, b, d, y)
    ensures Refuses(v, Seq(a, b), d, x + y)
  {
    hide Run;
    forall rest: bytes ensures Run(v, Seq(a, b), d, At(x + y + rest)) == Broken {
      assert x + y + rest == x + (y + rest);
      SeqRun(v, d, a, b, At(x + y + rest));
    }
  }

  lemma LeafRefuses(v: Version, d: nat)
    requires d <= COMPONENT_DEPTH
    ensures Refuses(v, HOLDER, d, VarIntBytes(0))
    ensures forall n: int32 {:trigger VarIntBytes(n)} :: n != 0 ==> Refuses(v, NONE_OF, d, VarIntBytes(n))
    ensures Refuses(v, Optional(HOLDER), d, [1] + VarIntBytes(0)) && Refuses(v, UNSEEN, d, [1])
  {
    hide VarIntBytes;
    forall n: int32, rest: bytes
      ensures n == 0 ==> Run(v, HOLDER, d, At(VarIntBytes(n) + rest)) == Broken
      ensures n != 0 ==> Run(v, NONE_OF, d, At(VarIntBytes(n) + rest)) == Broken
    {
      VarIntAt(n, rest);
    }
    forall rest: bytes
      ensures Run(v, Optional(HOLDER), d, At([1] + VarIntBytes(0) + rest)) == Broken
      ensures Run(v, UNSEEN, d, At([1] + rest)) == Broken
    {
      VarIntAt(0, rest);
      assert [1] + VarIntBytes(0) + rest == [1] + (VarIntBytes(0) + rest);
      FlagAt(1, VarIntBytes(0) + rest);
      FlagAt(1, rest);
    }
  }

  // ------------------------------------------------------------- counts and names

  /** A list is refused when its count is below zero or above the bytes there are. */
  lemma CountRefused(v: Version, d: nat, e: Shape, n: int32, rest: bytes)
    requires d <= COMPONENT_DEPTH && (n < 0 || n > |rest|)
    ensures var s := At(VarIntBytes(n) + rest);
            ListCount(s) == 0 && AfterCount(s) == Broken && Run(v, ListOf(e), d, s) == Broken
  {
    hide VarIntBytes, Stream.VarInt, Stream.AfterVarInt;
    VarIntAt(n, rest);
    ManyBroken(v, e, 0, d);
  }

  /** A holder set, when its count is below zero or counts more ids than there are bytes. */
  lemma SetRefused(v: Version, d: nat, n: int32, rest: bytes)
    requires d <= COMPONENT_DEPTH && (n < 0 || n - 1 > |rest|)
    ensures Run(v, IdSet, d, At(VarIntBytes(n) + rest)) == Broken
  {
    hide VarIntBytes, Stream.VarInt, Stream.AfterVarInt;
    VarIntAt(n, rest);
  }

  /** A text, when its length is below zero, above 131068, or more than there is. */
  lemma TextRefused(v: Version, d: nat, n: int32, rest: bytes)
    requires d <= COMPONENT_DEPTH && (n < 0 || n > 131068 || n > |rest|)
    ensures Run(v, Text, d, At(VarIntBytes(n) + rest)) == Broken
  {
    hide VarIntBytes, Stream.VarInt, Stream.AfterVarInt;
    VarIntAt(n, rest);
  }

  /** The first element of a list. */
  lemma ListRefuses(v: Version, d: nat, e: Shape, n: nat, x: bytes)
    requires d <= COMPONENT_DEPTH && Refuses(v, e, d, x) && 0 < n <= |x| && Fits31(n)
    ensures Refuses(v, ListOf(e), d, CountBytes(n) + x)
  {
    hide ListCount, AfterCount, CountBytes;
    ManyBroken(v, e, n - 1, d);
    forall rest: bytes ensures Run(v, ListOf(e), d, At(CountBytes(n) + x + rest)) == Broken {
      assert CountBytes(n) + x + rest == CountBytes(n) + (x + rest);
      CountAt(n, x + rest);
    }
  }

  // ------------------------------------------------------------------ the components

  /** An id that has no payload. */
  lemma UnknownRefused(v: Version, kind: int32, d: nat, s: Stream)
    requires d <= 16 && (kind < 0 || kind in {20, 41, 48} || kind > 110)
    ensures Run(v, ComponentShape(v.enc, kind), d, s) == Broken
  {
    assert ComponentShape(v.enc, kind) == Reject;
  }

  lemma SoundRefused(v: Version, d: nat)
    requires d <= COMPONENT_DEPTH
    ensures Refuses(v, ComponentShape(v.enc, 80), d, VarIntBytes(0))
  {
    LeafRefuses(v, d);
    hide Refuses, VarIntBytes;
    assert ComponentShape(v.enc, 80) == HOLDER;
  }

  /** A registry entry defined inline, or on the versions that flag it, not given. */
  lemma RegistryRefused(v: Version, d: nat, kind: int32, flag: int32)
    requires d <= COMPONENT_DEPTH && kind in {8, 61, 62, 64} && flag != 0
    ensures Refuses(v, ComponentShape(v.enc, kind), d, VarIntBytes(0))
    ensures v.enc.registryRefsHaveLeadingFlag ==>
              Refuses(v, ComponentShape(v.enc, kind), d, VarIntBytes(flag) + VarIntBytes(0))
  {
    assert ComponentShape(v.enc, kind) == FlaggedHolder(v.enc);
    LeafRefuses(v, d);
    HolderSkips(v, d);
    hide Refuses, Skips, VarIntBytes, ComponentShape, StructuredShape;
    FirstRefuses(v, d, HOLDER, HOLDER, VarIntBytes(0), []);
    ThenRefuses(v, d, HOLDER, HOLDER, VarIntBytes(flag), VarIntBytes(0));
    assert VarIntBytes(0) + [] == VarIntBytes(0);
  }

  lemma VariantRefused(v: Version, d: nat, kind: int32)
    requires d <= COMPONENT_DEPTH && kind in {97, 99} && v.enc.registryRefsHaveLeadingFlag
    ensures Refuses(v, ComponentShape(v.enc, kind), d, VarIntBytes(0))
  {
    assert ComponentShape(v.enc, kind) == Seq(HOLDER, VarInt);
    LeafRefuses(v, d);
    hide Refuses, VarIntBytes, ComponentShape, StructuredShape;
    FirstRefuses(v, d, HOLDER, VarInt, VarIntBytes(0), []);
    assert VarIntBytes(0) + [] == VarIntBytes(0);
  }

  lemma TrimRefused(v: Version, d: nat, material: int32, pattern: int32, more: bytes)
    requires d <= COMPONENT_DEPTH && (material == 0 || pattern == 0)
    ensures Refuses(v, ComponentShape(v.enc, 56), d, VarIntBytes(material) + (VarIntBytes(pattern) + more))
  {
    assert ComponentShape(v.enc, 56) == Trim(v.enc);
    LeafRefuses(v, d);
    HolderSkips(v, d);
    hide Refuses, Skips, VarIntBytes, ComponentShape;
    var end := if v.enc.trimHasTooltipFlag then FLAG else Empty;
    if material == 0 {
      FirstRefuses(v, d, HOLDER, Seq(HOLDER, end), VarIntBytes(0), VarIntBytes(pattern) + more);
    } else {
      FirstRefuses(v, d, HOLDER, end, VarIntBytes(0), more);
      ThenRefuses(v, d, HOLDER, Seq(HOLDER, end), VarIntBytes(material), VarIntBytes(pattern) + more);
    }
  }

  lemma BannerRefused(v: Version, d: nat, n: nat, more: bytes)
    requires d <= COMPONENT_DEPTH && 0 < n <= |VarIntBytes(0) + more| && Fits31(n)
    ensures Refuses(v, ComponentShape(v.enc, 72), d, CountBytes(n) + (VarIntBytes(0) + more))
  {
    assert ComponentShape(v.enc, 72) == ListOf(Seq(HOLDER, VarInt));
    LeafRefuses(v, d);
    hide Refuses, VarIntBytes, ComponentShape;
    FirstRefuses(v, d, HOLDER, VarInt, VarIntBytes(0), more);
    ListRefuses(v, d, Seq(HOLDER, VarInt), n, VarIntBytes(0) + more);
  }

  /** Two optional sounds, either of which is inline. */
  lemma SoundsRefused(v: Version, d: nat, first: Option<int32>, second: Option<int32>)
    requires d <= COMPONENT_DEPTH && (first == Some(0) || second == Some(0))
    ensures Refuses(v, TWO_SOUNDS, d, OptInt(first) + OptInt(second))
  {
    LeafRefuses(v, d);
    FieldSkips(v, d);
    hide Refuses, Skips, VarIntBytes;
    if first == Some(0) {
      FirstRefuses(v, d, Optional(HOLDER), Optional(HOLDER), OptInt(first), OptInt(second));
    } else {
      ThenRefuses(v, d, Optional(HOLDER), Optional(HOLDER), OptInt(first), OptInt(second));
    }
  }

  lemma WeaponRefused(v: Version, d: nat, a: int32, b: int32, sound: Option<int32>, hit: Option<int32>)
    requires d <= COMPONENT_DEPTH && (sound == Some(0) || hit == Some(0))
    ensures Refuses(v, ComponentShape(v.enc, 38), d, VarIntBytes(a) + (VarIntBytes(b) + (OptInt(sound) + OptInt(hit))))
  {
    assert ComponentShape(v.enc, 38) == PIERCING_WEAPON;
    LeafSkips(v, d);
    SoundsRefused(v, d, sound, hit);
    hide Refuses, Skips, VarIntBytes, OptInt, ComponentShape;
    ThenRefuses(v, d, VarInt, TWO_SOUNDS, VarIntBytes(b), OptInt(sound) + OptInt(hit));
    ThenRefuses(v, d, VarInt, Seq(VarInt, TWO_SOUNDS), VarIntBytes(a), VarIntBytes(b) + (OptInt(sound) + OptInt(hit)));
  }

  // ------------------------------------------------------------------------- effects

  lemma PotionRefused(v: Version, d: nat, brew: Option<int32>, colour: Option<bytes>, a: int32, b: int32)
    requires d <= COMPONENT_DEPTH && OptSized(colour, 4) && (a != 0 || b != 0)
    ensures Refuses(v, ComponentShape(v.enc, 51), d,
            OptInt(brew) + (OptRaw(colour) + (VarIntBytes(a) + VarIntBytes(b))))
  {
    LeafRefuses(v, d);
    HolderSkips(v, d);
    FieldSkips(v, d);
    hide Refuses, Skips, VarIntBytes, OptInt, OptRaw;
    if a != 0 {
      FirstRefuses(v, d, NONE_OF, NONE_OF, VarIntBytes(a), VarIntBytes(b));
    } else {
      ThenRefuses(v, d, NONE_OF, NONE_OF, VarIntBytes(a), VarIntBytes(b));
    }
    ThenRefuses(v, d, Optional(F32), Seq(NONE_OF, NONE_OF), OptRaw(colour), VarIntBytes(a) + VarIntBytes(b));
    ThenRefuses(v, d, Optional(VarInt), Seq(Optional(F32), Seq(NONE_OF, NONE_OF)), OptInt(brew),
                OptRaw(colour) + (VarIntBytes(a) + VarIntBytes(b)));
  }

  lemma ProtectionRefused(v: Version, d: nat, n: int32)
    requires d <= COMPONENT_DEPTH && n != 0
    ensures Refuses(v, ComponentShape(v.enc, 36), d, VarIntBytes(n))
  {
    LeafRefuses(v, d);
    hide Refuses, VarIntBytes;
    assert ComponentShape(v.enc, 36) == NONE_OF;
  }

  lemma ConsumedRefused(v: Version, d: nat, seconds: bytes, animation: int32, sound: int32, particles: bool, n: int32)
    requires d <= COMPONENT_DEPTH && |seconds| == 4 && (sound == 0 || n != 0)
    ensures Refuses(v, ComponentShape(v.enc, 24), d,
                    seconds + (VarIntBytes(animation) + (VarIntBytes(sound) + (Bool(particles) + VarIntBytes(n)))))
  {
    assert ComponentShape(v.enc, 24) == CONSUMABLE;
    LeafSkips(v, d);
    LeafRefuses(v, d);
    HolderSkips(v, d);
    hide Refuses, Skips, VarIntBytes, Bool, ComponentShape;
    var end := Bool(particles) + VarIntBytes(n);
    if sound == 0 {
      FirstRefuses(v, d, HOLDER, Seq(FLAG, NONE_OF), VarIntBytes(sound), end);
    } else {
      ThenRefuses(v, d, FLAG, NONE_OF, Bool(particles), VarIntBytes(n));
      ThenRefuses(v, d, HOLDER, Seq(FLAG, NONE_OF), VarIntBytes(sound), end);
    }
    ThenRefuses(v, d, VarInt, Seq(HOLDER, Seq(FLAG, NONE_OF)), VarIntBytes(animation), VarIntBytes(sound) + end);
    ThenRefuses(v, d, F32, Seq(VarInt, Seq(HOLDER, Seq(FLAG, NONE_OF))), seconds,
                VarIntBytes(animation) + (VarIntBytes(sound) + end));
  }

  // -------------------------------------------------------------------- blocks and heads

  /** A block test on state properties, or where they can be, on components. */
  lemma TestRefused(v: Version, d: nat, blocks: Option<HolderSet>, more: bytes)
    requires d <= COMPONENT_DEPTH && OptSet(blocks)
    ensures Refuses(v, BlockPredicate(v.enc), d, OptSetBytes(blocks) + ([1] + more))
  {
    LeafRefuses(v, d);
    FieldSkips(v, d);
    hide Refuses, Skips, OptSetBytes;
    var end := Seq(Optional(Tag), if v.enc.legacyBlockPredicates then Empty else Seq(NONE_OF, NONE_OF));
    FirstRefuses(v, d, UNSEEN, end, [1], more);
    ThenRefuses(v, d, Optional(IdSet), Seq(UNSEEN, end), OptSetBytes(blocks), [1] + more);
  }

  lemma MatchersRefused(v: Version, d: nat, t: Test, exact: int32, partly: int32)
    requires d <= COMPONENT_DEPTH && TestOk(t) && !v.enc.legacyBlockPredicates && (exact != 0 || partly != 0)
    ensures Refuses(v, BlockPredicate(v.enc), d,
                    OptSetBytes(t.blocks) + ([0] + (OptRootBytes(t.nbt) + (VarIntBytes(exact) + VarIntBytes(partly)))))
  {
    LeafRefuses(v, d);
    HolderSkips(v, d);
    OptionalSkips(v, d);
    FieldSkips(v, d);
    hide Refuses, Skips, OptSetBytes, OptRootBytes, VarIntBytes;
    var none := VarIntBytes(exact) + VarIntBytes(partly);
    if exact != 0 {
      FirstRefuses(v, d, NONE_OF, NONE_OF, VarIntBytes(exact), VarIntBytes(partly));
    } else {
      ThenRefuses(v, d, NONE_OF, NONE_OF, VarIntBytes(exact), VarIntBytes(partly));
    }
    var end := Seq(NONE_OF, NONE_OF);
    ThenRefuses(v, d, Optional(Tag), end, OptRootBytes(t.nbt), none);
    ThenRefuses(v, d, UNSEEN, Seq(Optional(Tag), end), [0], OptRootBytes(t.nbt) + none);
    ThenRefuses(v, d, Optional(IdSet), Seq(UNSEEN, Seq(Optional(Tag), end)), OptSetBytes(t.blocks),
                [0] + (OptRootBytes(t.nbt) + none));
  }

  /** Tests are listed, so either refuses the component. */
  lemma TestsRefused(v: Version, d: nat, kind: int32, n: nat, first: bytes, more: bytes)
    requires d <= COMPONENT_DEPTH && kind in {14, 15} && 0 < n <= |first| && Fits31(n)
    requires Refuses(v, BlockPredicate(v.enc), d, first)
    ensures Refuses(v, ComponentShape(v.enc, kind), d, CountBytes(n) + first + more)
  {
    assert ComponentShape(v.enc, kind) == BlockPredicates(v.enc);
    hide Refuses, CountBytes, BlockPredicate;
    ListRefuses(v, d, BlockPredicate(v.enc), n, first);
    FirstRefuses(v, d, ListOf(BlockPredicate(v.enc)), if v.enc.legacyBlockPredicates then FLAG else Empty,
                 CountBytes(n) + first, more);
  }

  lemma GuardRefused(v: Version, d: nat, delay: bytes, scale: bytes, n: int32, more: bytes)
    requires d <= COMPONENT_DEPTH && |delay| == |scale| == 4 && n != 0
    ensures Refuses(v, ComponentShape(v.enc, 37), d, delay + (scale + (VarIntBytes(n) + more)))
  {
    assert ComponentShape(v.enc, 37) == BlocksAttacks(v.enc);
    LeafSkips(v, d);
    LeafRefuses(v, d);
    hide Refuses, Skips, VarIntBytes, ComponentShape;
    var end := Seq(F32, Seq(F32, Seq(F32, Seq(Optional(TagName(v.enc)), TWO_SOUNDS))));
    FirstRefuses(v, d, NONE_OF, end, VarIntBytes(n), more);
    ThenRefuses(v, d, F32, Seq(NONE_OF, end), scale, VarIntBytes(n) + more);
    ThenRefuses(v, d, F32, Seq(F32, Seq(NONE_OF, end)), delay, scale + (VarIntBytes(n) + more));
  }

  lemma WornRefused(v: Version, d: nat, slot: int32, more: bytes)
    requires d <= COMPONENT_DEPTH
    ensures Refuses(v, ComponentShape(v.enc, 32), d, VarIntBytes(slot) + (VarIntBytes(0) + more))
  {
    assert ComponentShape(v.enc, 32) == Equippable(v.enc);
    LeafSkips(v, d);
    LeafRefuses(v, d);
    hide Refuses, Skips, VarIntBytes, ComponentShape;
    var end := Seq(Optional(Text), Seq(Optional(Text), Seq(Optional(IdSet),
      if v.enc.equippableHasNoShearing then Fixed(3) else Seq(Fixed(5), HOLDER))));
    FirstRefuses(v, d, HOLDER, end, VarIntBytes(0), more);
    ThenRefuses(v, d, VarInt, Seq(HOLDER, end), VarIntBytes(slot), VarIntBytes(0) + more);
  }

  /** A field after a profile's properties, which has never been seen. */
  lemma HeadRefused(v: Version, d: nat, uuid: bytes, name: bytes, tag: int32, before: nat, more: bytes)
    requires d <= COMPONENT_DEPTH && !v.enc.profileHasNoVariantTag && |uuid| == 16 && Short(name) && tag != 0
    requires before < 4
    ensures Refuses(v, ComponentShape(v.enc, 70), d,
                    VarIntBytes(tag) + (uuid + TextBytes(name)) + (CountBytes(0) + (Zeros(before) + ([1] + more))))
  {
    assert ComponentShape(v.enc, 70) == Profile(v.enc);
    LeafSkips(v, d);
    hide Refuses, Skips, VarIntBytes, CountBytes, TextBytes, ComponentShape, StructuredShape, Zeros, Trailing;
    SeqStep(v, d, Fixed(16), Text, uuid, TextBytes(name));
    CaseStep(v, d, 0, NAME_AND_UUID, Seq(Fixed(16), Text), tag, uuid + TextBytes(name));
    NoProperties(v, d);
    TrailingRefused(v, d, 4, before, more);
    assert ProfileProperties(true) == Seq(ListOf(PROFILE_PROPERTY), Trailing(4)) by { TrailingIs(); }
    ThenRefuses(v, d, ListOf(PROFILE_PROPERTY), Trailing(4), CountBytes(0), Zeros(before) + ([1] + more));
    ThenRefuses(v, d, Case(0, NAME_AND_UUID, Seq(Fixed(16), Text)), ProfileProperties(true),
                VarIntBytes(tag) + (uuid + TextBytes(name)), CountBytes(0) + (Zeros(before) + ([1] + more)));
  }

  function Zeros(n: nat): bytes { if n == 0 then [] else [0] + Zeros(n - 1) }

  function Trailing(n: nat): Shape
    requires n > 0
  {
    if n == 1 then UNSEEN else Seq(UNSEEN, Trailing(n - 1))
  }

  lemma TrailingIs()
    ensures Trailing(4) == Seq(UNSEEN, Seq(UNSEEN, Seq(UNSEEN, UNSEEN)))
  {
    assert Trailing(3) == Seq(UNSEEN, Trailing(2));
  }

  lemma NoProperties(v: Version, d: nat)
    requires d <= COMPONENT_DEPTH
    ensures Skips(v, ListOf(PROFILE_PROPERTY), d, CountBytes(0))
  {
    hide ListCount, AfterCount, CountBytes;
    forall rest: bytes
      ensures Run(v, ListOf(PROFILE_PROPERTY), d, At(CountBytes(0) + rest)) == At(rest)
    {
      CountAt(0, rest);
    }
  }

  lemma StillRefuses(v: Version, d: nat, sh: Shape, x: bytes, more: bytes)
    requires d <= COMPONENT_DEPTH && Refuses(v, sh, d, x)
    ensures Refuses(v, sh, d, x + more)
  {
    hide Run;
    forall rest: bytes ensures Run(v, sh, d, At(x + more + rest)) == Broken {
      assert x + more + rest == x + (more + rest);
    }
  }

  lemma {:induction false} TrailingRefused(v: Version, d: nat, n: nat, before: nat, more: bytes)
    requires d <= COMPONENT_DEPTH && before < n
    ensures Refuses(v, Trailing(n), d, Zeros(before) + ([1] + more))
    decreases n
  {
    LeafRefuses(v, d);
    OptionalSkips(v, d);
    hide Skips, Refuses, Run;
    if before == 0 {
      assert Zeros(0) + ([1] + more) == [1] + more;
      if n == 1 {
        StillRefuses(v, d, UNSEEN, [1], more);
      } else {
        FirstRefuses(v, d, UNSEEN, Trailing(n - 1), [1], more);
      }
    } else {
      TrailingRefused(v, d, n - 1, before - 1, more);
      assert Zeros(before) + ([1] + more) == [0] + (Zeros(before - 1) + ([1] + more));
      ThenRefuses(v, d, UNSEEN, Trailing(n - 1), [0], Zeros(before - 1) + ([1] + more));
    }
  }
}
