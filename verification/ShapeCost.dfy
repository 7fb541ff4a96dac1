/** How much reading a shape costs, on any bytes. While reads succeed every one is paid for
by the bytes it consumes; once the reader has failed, loops already entered run on with
zero reads, and what they can still do is bounded by the counts the bytes allowed. */
module ShapeCost {
  import opened Words
  import opened Wire
  import opened Shapes
  import opened ShapeCodec
  import Nbt

  // --------------------------------------------------------------------- reads made

  ghost function Cost(v: Version, sh: Shape, d: nat, s: Stream): nat
    requires d <= COMPONENT_DEPTH
    decreases COMPONENT_DEPTH + 1 - d, 1, sh, 0
  {
    match sh
    case Empty => 0
    case Reject => 0
    case VarInt => 1
    case Fixed(_) => 1
    case Text => 2
    case Tag => 1 + Nbt.TagWork(s.Remaining())
    case IdSet => 3 + IdCount(s)
    case Seq(a, b) => Cost(v, a, d, s) + Cost(v, b, d, Run(v, a, d, s))
    case Optional(b) => 1 + if s.Peek(1) != 0 then Cost(v, b, d, s.Skip(1)) else 0
    case Case(k, a, b) => 1 + if s.VarInt() == k then Cost(v, a, d, s.AfterVarInt()) else Cost(v, b, d, s.AfterVarInt())
    case ListOf(e) => 1 + ManyCost(v, e, ListCount(s), d, AfterCount(s))
    case Stack => StackCost(v, d, s)
    case Slot => if s.Err() || s.rest == [] then 0 else if s.rest[0] == 0 then 1 else StackCost(v, d, s)
  }

  ghost function ManyCost(v: Version, e: Shape, n: nat, d: nat, s: Stream): nat
    requires d <= COMPONENT_DEPTH
    decreases COMPONENT_DEPTH + 1 - d, 1, e, n
  {
    if n == 0 then 0 else Cost(v, e, d, s) + ManyCost(v, e, n - 1, d, Run(v, e, d, s))
  }

  ghost function StackCost(v: Version, d: nat, s: Stream): nat
    requires d <= COMPONENT_DEPTH
    decreases COMPONENT_DEPTH + 1 - d, 0
  {
    var s1 := s.AfterVarInt().AfterVarInt();
    var s2 := AfterCount(s1);
    4 + ComponentsCost(v, ListCount(s1), d + 1, AfterCount(s2)) + ListCount(s2)
  }

  ghost function ComponentsCost(v: Version, n: nat, d: nat, s: Stream): nat
    requires d <= COMPONENT_DEPTH + 1
    decreases COMPONENT_DEPTH + 1 - d, 3, n
  {
    if n == 0 then 0
    else
      1 + ComponentCost(v, s.VarInt(), d, s.AfterVarInt()) +
      ComponentsCost(v, n - 1, d, RunComponent(v, s.VarInt(), d, s.AfterVarInt()))
  }

  ghost function ComponentCost(v: Version, wire: int32, d: nat, s: Stream): nat
    requires d <= COMPONENT_DEPTH + 1
    decreases COMPONENT_DEPTH + 1 - d, 2
  {
    if d > COMPONENT_DEPTH || CanonicalComponent(v, wire) == None then 0
    else Cost(v, ComponentShape(v.enc, CanonicalComponent(v, wire).value), d, s)
  }

  // -------------------------------------------------------- while reads succeed

  /** Three reads a byte at most: a success consumed a suffix and paid for itself. */
  ghost predicate PaidByBytes(cost: nat, s: Stream, s': Stream) {
    s'.At? ==> s.At? && |s'.rest| <= |s.rest| && cost <= 3 * (|s.rest| - |s'.rest|)
  }

  lemma LeavesLess(s: Stream)
    ensures PaidByBytes(1, s, s.AfterVarInt()) && PaidByBytes(2, s, s.AfterVarInt())
    ensures PaidByBytes(2, s, s.AfterString())
    ensures PaidByBytes(1, s, AfterCount(s))
    ensures PaidByBytes(1 + Nbt.TagWork(s.Remaining()), s, AfterTag(s))
  {
    ReadsConsume(s, 0);
    Nbt.TagWorkPaid(s.Remaining());
  }

  lemma {:induction false} VarIntsPaid(s: Stream, n: nat)
    ensures PaidByBytes(n, s, AfterVarInts(s, n))
    decreases n
  {
    if n > 0 {
      LeavesLess(s);
      VarIntsPaid(s.AfterVarInt(), n - 1);
    }
  }

  lemma IdSetPaid(s: Stream)
    ensures PaidByBytes(3 + IdCount(s), s, AfterIdSet(s))
  {
    ReadsConsume(s, 0);
    ReadsConsume(s.AfterVarInt(), 0);
    if s.VarInt() > 0 {
      VarIntsConsume(s.AfterVarInt(), IdCount(s));
    }
  }

  lemma {:induction false} VarIntsConsume(s: Stream, n: nat)
    ensures AfterVarInts(s, n).At? ==> s.At? && |AfterVarInts(s, n).rest| + n <= |s.rest|
    decreases n
  {
    if n > 0 {
      ReadsConsume(s, 0);
      VarIntsConsume(s.AfterVarInt(), n - 1);
    }
  }

  lemma {:induction false} RunPaid(v: Version, sh: Shape, d: nat, s: Stream)
    requires d <= COMPONENT_DEPTH && WellShaped(sh)
    ensures PaidByBytes(Cost(v, sh, d, s), s, Run(v, sh, d, s))
    decreases COMPONENT_DEPTH + 1 - d, 1, sh, 0
  {
    hide RunStack, StackCost, AfterIdSet, IdCount, AfterTag, Nbt.TagWork;
    LeavesLess(s);
    match sh
    case Seq(a, b) =>
      RunPaid(v, a, d, s);
      RunPaid(v, b, d, Run(v, a, d, s));
    case Optional(b) => RunPaid(v, b, d, s.Skip(1));
    case Case(k, a, b) => RunPaid(v, if s.VarInt() == k then a else b, d, s.AfterVarInt());
    case ListOf(e) => ManyPaid(v, e, ListCount(s), d, AfterCount(s));
    case Stack => StackPaid(v, d, s);
    case Slot => StackPaid(v, d, s);
    case IdSet => IdSetPaid(s);
    case _ =>
  }

  lemma {:induction false} ManyPaid(v: Version, e: Shape, n: nat, d: nat, s: Stream)
    requires d <= COMPONENT_DEPTH && WellShaped(e)
    ensures PaidByBytes(ManyCost(v, e, n, d, s), s, RunMany(v, e, n, d, s))
    decreases COMPONENT_DEPTH + 1 - d, 1, e, n
  {
    if n > 0 {
      RunPaid(v, e, d, s);
      ManyPaid(v, e, n - 1, d, Run(v, e, d, s));
    }
  }

  lemma {:induction false} StackPaid(v: Version, d: nat, s: Stream)
    requires d <= COMPONENT_DEPTH
    ensures PaidByBytes(StackCost(v, d, s), s, RunStack(v, d, s))
    decreases COMPONENT_DEPTH + 1 - d, 0
  {
    hide RunComponents, ComponentsCost, AfterCount, ListCount, AfterVarInts;
    var s1 := s.AfterVarInt().AfterVarInt();
    var s2 := AfterCount(s1);
    var s3 := AfterCount(s2);
    LeavesLess(s);
    LeavesLess(s.AfterVarInt());
    LeavesLess(s1);
    LeavesLess(s2);
    ComponentsPaid(v, ListCount(s1), d + 1, s3);
    VarIntsPaid(RunComponents(v, ListCount(s1), d + 1, s3), ListCount(s2));
  }

  lemma {:induction false} ComponentsPaid(v: Version, n: nat, d: nat, s: Stream)
    requires d <= COMPONENT_DEPTH + 1
    ensures PaidByBytes(ComponentsCost(v, n, d, s), s, RunComponents(v, n, d, s))
    decreases COMPONENT_DEPTH + 1 - d, 3, n
  {
    if n > 0 {
      LeavesLess(s);
      ComponentPaid(v, s.VarInt(), d, s.AfterVarInt());
      ComponentsPaid(v, n - 1, d, RunComponent(v, s.VarInt(), d, s.AfterVarInt()));
    }
  }

  lemma {:induction false} ComponentPaid(v: Version, wire: int32, d: nat, s: Stream)
    requires d <= COMPONENT_DEPTH + 1
    ensures PaidByBytes(ComponentCost(v, wire, d, s), s, RunComponent(v, wire, d, s))
    decreases COMPONENT_DEPTH + 1 - d, 2
  {
    hide ComponentShape, Run, Cost, WellShaped, Weight, Stacks;
    if d <= COMPONENT_DEPTH && CanonicalComponent(v, wire).Some? {
      var sh := ComponentShape(v.enc, CanonicalComponent(v, wire).value);
      ComponentTame(v.enc, CanonicalComponent(v, wire).value);
      RunPaid(v, sh, d, s);
    }
  }

  // ------------------------------------------------------------ once a read has failed

  /** What each level of nesting adds to the price of a byte, and to the overhead. */
  const LEVEL_RATE := 2 * MAX_WEIGHT + 2
  const LEVEL_FEE := MAX_WEIGHT + 5

  function Rate(d: nat): nat
    requires d <= COMPONENT_DEPTH + 1
  {
    3 + LEVEL_RATE * (COMPONENT_DEPTH + 1 - d)
  }

  function Fee(d: nat): nat
    requires d <= COMPONENT_DEPTH + 1
  {
    LEVEL_FEE * (COMPONENT_DEPTH + 1 - d)
  }

  function Left(s: Stream): nat { |s.Remaining()| }

  /** A bound on any run, failed or not, by the bytes there were. */
  ghost predicate Within(cost: nat, s: Stream, rate: nat, fee: nat) {
    cost <= rate * Left(s) + fee
  }

  lemma Dearer(n: nat, r: nat, r': nat)
    requires r <= r'
    ensures r * n <= r' * n
  {
  }

  /** A paid-for part followed by a bounded one. */
  lemma WithinAfter(c1: nat, c2: nat, s: Stream, s': Stream, r: nat, r': nat, fee: nat)
    requires PaidByBytes(c1, s, s') && s'.At? && 3 <= r && r' <= r && Within(c2, s', r', fee)
    ensures Within(c1 + c2, s, r, fee)
  {
    Dearer(Left(s'), r', r);
    Dearer(Left(s) - Left(s'), 3, r);
    SplitRate(r, Left(s), Left(s'));
  }

  lemma SplitRate(r: nat, n: nat, m: nat)
    requires m <= n
    ensures r * n == r * (n - m) + r * m
  {
  }

  lemma WithinMore(c: nat, s: Stream, r: nat, r': nat, fee: nat, fee': nat)
    requires Within(c, s, r, fee) && r <= r' && fee <= fee'
    ensures Within(c, s, r', fee')
  {
    Dearer(Left(s), r, r');
  }

  /** On a reader that has already failed a shape still makes a few reads, all zero. */
  lemma {:induction false} BrokenCost(v: Version, sh: Shape, d: nat)
    requires d <= COMPONENT_DEPTH
    ensures Cost(v, sh, d, Broken) <= Weight(sh)
    decreases sh
  {
    match sh
    case Seq(a, b) =>
      BrokenCost(v, a, d);
      BrokenCost(v, b, d);
      RunBroken(v, a, d);
    case Case(k, a, b) =>
      BrokenCost(v, a, d);
      BrokenCost(v, b, d);
    case Stack => BrokenStackCost(v, d);
    case _ =>
  }

  lemma BrokenStackCost(v: Version, d: nat)
    requires d <= COMPONENT_DEPTH
    ensures StackCost(v, d, Broken) == 4
  {
    assert ComponentsCost(v, 0, d + 1, Broken) == 0;
  }

  lemma {:induction false} BrokenManyCost(v: Version, e: Shape, n: nat, d: nat)
    requires d <= COMPONENT_DEPTH
    ensures ManyCost(v, e, n, d, Broken) <= Weight(e) * n
    decreases n
  {
    if n > 0 {
      BrokenCost(v, e, d);
      RunBroken(v, e, d);
      BrokenManyCost(v, e, n - 1, d);
      assert Weight(e) * n == Weight(e) * (n - 1) + Weight(e);
    }
  }

  lemma {:induction false} BrokenComponentsCost(v: Version, n: nat, d: nat)
    requires d <= COMPONENT_DEPTH + 1
    ensures ComponentsCost(v, n, d, Broken) <= (MAX_WEIGHT + 1) * n
    decreases n
  {
    hide ComponentShape, Cost, Run;
    if n > 0 {
      if d <= COMPONENT_DEPTH && CanonicalComponent(v, 0).Some? {
        var sh := ComponentShape(v.enc, CanonicalComponent(v, 0).value);
        ComponentTame(v.enc, CanonicalComponent(v, 0).value);
        BrokenCost(v, sh, d);
        RunBroken(v, sh, d);
      }
      BrokenComponentsCost(v, n - 1, d);
    }
  }

  function ShapeFee(sh: Shape, d: nat): nat
    requires d <= COMPONENT_DEPTH
  {
    if Stacks(sh) > 0 then Fee(d) else 0
  }

  /** The bound for a shape: its weight more per byte than a stack at its depth. */
  ghost predicate ShapeWithin(cost: nat, sh: Shape, d: nat, s: Stream)
    requires d <= COMPONENT_DEPTH
  {
    Within(cost, s, Rate(d) + Weight(sh), ShapeFee(sh, d) + Weight(sh))
  }

  lemma LeafWithin(v: Version, sh: Shape, d: nat, s: Stream)
    requires d <= COMPONENT_DEPTH
    requires sh.Empty? || sh.Reject? || sh.VarInt? || sh.Fixed? || sh.Text? || sh.Tag? || sh.IdSet?
    ensures ShapeWithin(Cost(v, sh, d, s), sh, d, s)
  {
    Dearer(Left(s), 3, Rate(d) + Weight(sh));
    match sh
    case Tag => Nbt.TagWorkPaid(s.Remaining());
    case IdSet => ReadsConsume(s, 0);
    case _ =>
  }

  lemma SeqFacts(v: Version, a: Shape, b: Shape, d: nat, s: Stream)
    requires d <= COMPONENT_DEPTH && WellShaped(Seq(a, b)) && Stacks(Seq(a, b)) <= 1
    ensures Cost(v, Seq(a, b), d, s) == Cost(v, a, d, s) + Cost(v, b, d, Run(v, a, d, s))
    ensures Weight(Seq(a, b)) == Weight(a) + Weight(b) && ShapeFee(Seq(a, b), d) == ShapeFee(a, d) + ShapeFee(b, d)
    ensures WellShaped(a)
  {
  }

  lemma ShapeWithinIs(cost: nat, sh: Shape, d: nat, s: Stream)
    requires d <= COMPONENT_DEPTH
    ensures ShapeWithin(cost, sh, d, s) == Within(cost, s, Rate(d) + Weight(sh), ShapeFee(sh, d) + Weight(sh))
  {
  }

  lemma SeqWithin(v: Version, a: Shape, b: Shape, d: nat, s: Stream)
    requires d <= COMPONENT_DEPTH && WellShaped(Seq(a, b)) && Stacks(Seq(a, b)) <= 1
    requires ShapeWithin(Cost(v, a, d, s), a, d, s)
    requires ShapeWithin(Cost(v, b, d, Run(v, a, d, s)), b, d, Run(v, a, d, s))
    ensures ShapeWithin(Cost(v, Seq(a, b), d, s), Seq(a, b), d, s)
  {
    hide *;
    var s1 := Run(v, a, d, s);
    var ca, cb := Cost(v, a, d, s), Cost(v, b, d, s1);
    SeqFacts(v, a, b, d, s);
    RunPaid(v, a, d, s);
    RateAtLeast(d);
    BrokenCost(v, b, d);
    ShapeWithinIs(ca, a, d, s);
    ShapeWithinIs(cb, b, d, s1);
    ShapeWithinIs(ca + cb, Seq(a, b), d, s);
    TwoParts(ca, cb, s, s1, Rate(d), Weight(a), Weight(b), ShapeFee(a, d), ShapeFee(b, d));
  }

  lemma TwoParts(ca: nat, cb: nat, s: Stream, s1: Stream, r: nat, wa: nat, wb: nat, fa: nat, fb: nat)
    requires Within(ca, s, r + wa, fa + wa) && Within(cb, s1, r + wb, fb + wb)
    requires PaidByBytes(ca, s, s1) && (s1.Broken? ==> cb <= wb) && r >= 3
    ensures Within(ca + cb, s, r + (wa + wb), (fa + fb) + (wa + wb))
  {
    if s1.At? {
      WithinAfter(ca, cb, s, s1, r + (wa + wb), r + wb, fb + wb);
      WithinMore(ca + cb, s, r + (wa + wb), r + (wa + wb), fb + wb, (fa + fb) + (wa + wb));
    } else {
      WithinPlus(ca, cb, s, r + wa, fa + wa, wb);
      WithinMore(ca + cb, s, r + wa, r + (wa + wb), fa + wa + wb, (fa + fb) + (wa + wb));
    }
  }

  lemma RateAtLeast(d: nat)
    requires d <= COMPONENT_DEPTH + 1
    ensures Rate(d) >= 3
  {
  }

  lemma WithinPlus(c: nat, extra: nat, s: Stream, r: nat, fee: nat, more: nat)
    requires Within(c, s, r, fee) && extra <= more
    ensures Within(c + extra, s, r, fee + more)
  {
  }

  /** One read, then a shape. */
  lemma ReadThen(c: nat, s: Stream, s': Stream, r: nat, r': nat, fee: nat)
    requires PaidByBytes(1, s, s') && 3 <= r && r' <= r && Within(c, s', r', fee)
    ensures Within(1 + c, s, r, fee + 1)
  {
    if s'.At? {
      WithinAfter(1, c, s, s', r, r', fee);
      WithinMore(1 + c, s, r, r, fee, fee + 1);
    } else {
      assert Left(s') == 0;
      Dearer(Left(s), 0, r);
    }
  }

  lemma ListWithin(c: nat, n: nat, w: nat, s: Stream, s': Stream, r: nat, fee: nat)
    requires PaidByBytes(1, s, s') && 3 <= r && n <= Left(s') && c <= r * Left(s') + fee + w * n
    ensures Within(1 + c, s, r + w, fee + 1)
  {
    Dearer(w, n, Left(s'));
    assert Within(c, s', r + w, fee) by {
      assert (r + w) * Left(s') == r * Left(s') + w * Left(s');
    }
    ReadThen(c, s, s', r + w, r + w, fee);
  }

  /** Any run of a shape, malformed bytes or not, is linear in the bytes left. */
  lemma {:induction false} ShapeBound(v: Version, sh: Shape, d: nat, s: Stream)
    requires d <= COMPONENT_DEPTH && WellShaped(sh) && Stacks(sh) <= 1
    ensures ShapeWithin(Cost(v, sh, d, s), sh, d, s)
    decreases COMPONENT_DEPTH + 1 - d, 1, sh, 0
  {
    hide Within, StackCost, RunStack, Rate, Fee, IdCount, ShapeFee;
    RateAtLeast(d);
    LeavesLess(s);
    match sh
    case Seq(a, b) =>
      ShapeBound(v, a, d, s);
      ShapeBound(v, b, d, Run(v, a, d, s));
      SeqWithin(v, a, b, d, s);
    case Optional(b) =>
      ShapeBound(v, b, d, s.Skip(1));
      OptionalWithin(v, b, d, s);
    case Case(k, a, b) =>
      ShapeBound(v, if s.VarInt() == k then a else b, d, s.AfterVarInt());
      CaseWithin(v, k, a, b, d, s);
    case ListOf(e) =>
      ManyBound(v, e, ListCount(s), d, AfterCount(s));
      ListBound(v, e, d, s);
    case Stack => SlotOrStackWithin(v, sh, d, s);
    case Slot => SlotOrStackWithin(v, sh, d, s);
    case _ => LeafWithin(v, sh, d, s);
  }

  lemma ListFacts(v: Version, e: Shape, d: nat, s: Stream)
    requires d <= COMPONENT_DEPTH
    ensures Cost(v, ListOf(e), d, s) == 1 + ManyCost(v, e, ListCount(s), d, AfterCount(s))
    ensures Weight(ListOf(e)) == 1 + 2 * Weight(e) && ShapeFee(ListOf(e), d) == ShapeFee(e, d)
  {
  }

  lemma ListBound(v: Version, e: Shape, d: nat, s: Stream)
    requires d <= COMPONENT_DEPTH
    requires ManyCost(v, e, ListCount(s), d, AfterCount(s))
          <= (Rate(d) + Weight(e)) * Left(AfterCount(s)) + (ShapeFee(e, d) + Weight(e)) + Weight(e) * ListCount(s)
    ensures ShapeWithin(Cost(v, ListOf(e), d, s), ListOf(e), d, s)
  {
    hide *;
    ListFacts(v, e, d, s);
    AfterCountPaid(s);
    RateAtLeast(d);
    CountRoom(s);
    var c := ManyCost(v, e, ListCount(s), d, AfterCount(s));
    ListAll(c, ListCount(s), Weight(e), s, AfterCount(s), Rate(d), ShapeFee(e, d));
    ShapeWithinIs(1 + c, ListOf(e), d, s);
  }

  lemma AfterCountPaid(s: Stream)
    ensures PaidByBytes(1, s, AfterCount(s))
  {
    LeavesLess(s);
  }

  lemma ListAll(c: nat, n: nat, w: nat, s: Stream, s': Stream, r: nat, fee: nat)
    requires PaidByBytes(1, s, s') && 3 <= r && n <= Left(s') && c <= (r + w) * Left(s') + (fee + w) + w * n
    ensures Within(1 + c, s, r + (1 + 2 * w), fee + (1 + 2 * w))
  {
    hide *;
    ListWithin(c, n, w, s, s', r + w, fee + w);
    WithinMore(1 + c, s, r + w + w, r + (1 + 2 * w), fee + w + 1, fee + (1 + 2 * w));
  }

  lemma OptionalFacts(v: Version, b: Shape, d: nat, s: Stream)
    requires d <= COMPONENT_DEPTH
    ensures Cost(v, Optional(b), d, s) == 1 + if s.Peek(1) != 0 then Cost(v, b, d, s.Skip(1)) else 0
    ensures Weight(Optional(b)) == 1 + Weight(b) && ShapeFee(Optional(b), d) == ShapeFee(b, d)
    ensures PaidByBytes(1, s, s.Skip(1))
  {
  }

  lemma OptionalWithin(v: Version, b: Shape, d: nat, s: Stream)
    requires d <= COMPONENT_DEPTH && ShapeWithin(Cost(v, b, d, s.Skip(1)), b, d, s.Skip(1))
    ensures ShapeWithin(Cost(v, Optional(b), d, s), Optional(b), d, s)
  {
    hide *;
    var c := if s.Peek(1) != 0 then Cost(v, b, d, s.Skip(1)) else 0;
    OptionalFacts(v, b, d, s);
    RateAtLeast(d);
    ShapeWithinIs(Cost(v, b, d, s.Skip(1)), b, d, s.Skip(1));
    ShapeWithinIs(1 + c, Optional(b), d, s);
    ZeroWithin(s.Skip(1), Rate(d) + Weight(b), ShapeFee(b, d) + Weight(b));
    ReadThen(c, s, s.Skip(1), Rate(d) + (1 + Weight(b)), Rate(d) + Weight(b), ShapeFee(b, d) + Weight(b));
  }

  lemma ZeroWithin(s: Stream, r: nat, fee: nat)
    ensures Within(0, s, r, fee)
  {
    Dearer(Left(s), 0, r);
  }

  lemma CaseWithin(v: Version, k: int32, a: Shape, b: Shape, d: nat, s: Stream)
    requires d <= COMPONENT_DEPTH
    requires var c := if s.VarInt() == k then a else b;
             ShapeWithin(Cost(v, c, d, s.AfterVarInt()), c, d, s.AfterVarInt())
    ensures ShapeWithin(Cost(v, Case(k, a, b), d, s), Case(k, a, b), d, s)
  {
    hide Within, Rate, Fee;
    RateAtLeast(d);
    LeavesLess(s);
    var c := if s.VarInt() == k then a else b;
    var all := Case(k, a, b);
    ReadThen(Cost(v, c, d, s.AfterVarInt()), s, s.AfterVarInt(), Rate(d) + Weight(all), Rate(d) + Weight(c),
             ShapeFee(c, d) + Weight(c));
    WithinMore(Cost(v, all, d, s), s, Rate(d) + Weight(all), Rate(d) + Weight(all), ShapeFee(c, d) + Weight(c) + 1,
               ShapeFee(all, d) + Weight(all));
  }

  lemma OneWithin(c: nat, s: Stream, r: nat, fee: nat)
    ensures c <= 1 <= fee ==> Within(c, s, r, fee)
  {
    Dearer(Left(s), 0, r);
  }

  lemma {:induction false} SlotOrStackWithin(v: Version, sh: Shape, d: nat, s: Stream)
    requires d <= COMPONENT_DEPTH && (sh.Stack? || sh.Slot?)
    ensures ShapeWithin(Cost(v, sh, d, s), sh, d, s)
    decreases COMPONENT_DEPTH + 1 - d, 0, 1
  {
    hide StackCost, Rate, Fee, Within;
    StackBound(v, d, s);
    assert Weight(sh) == 4 && ShapeFee(sh, d) == Fee(d);
    assert Cost(v, sh, d, s) <= 1 || Cost(v, sh, d, s) == StackCost(v, d, s);
    hide *;
    WithinMore(StackCost(v, d, s), s, Rate(d), Rate(d) + 4, Fee(d), Fee(d) + 4);
    OneWithin(Cost(v, sh, d, s), s, Rate(d) + 4, Fee(d) + 4);
  }

  lemma {:induction false} ManyBound(v: Version, e: Shape, n: nat, d: nat, s: Stream)
    requires d <= COMPONENT_DEPTH && WellShaped(e) && Stacks(e) <= 1
    ensures ManyCost(v, e, n, d, s) <= (Rate(d) + Weight(e)) * Left(s) + (ShapeFee(e, d) + Weight(e)) + Weight(e) * n
    decreases COMPONENT_DEPTH + 1 - d, 1, e, n
  {
    hide *;
    RateAtLeast(d);
    ManyFacts(v, e, n, d, s);
    var r, fee := Rate(d) + Weight(e), ShapeFee(e, d) + Weight(e);
    if n == 0 {
      Dearer(Left(s), 0, r);
    } else {
      var s1 := Run(v, e, d, s);
      OneMore(Weight(e), n);
      if s1.At? {
        RunPaid(v, e, d, s);
        ManyBound(v, e, n - 1, d, s1);
        FirstPaid(Cost(v, e, d, s), s, s1, r);
      } else {
        ShapeBound(v, e, d, s);
        ShapeWithinIs(Cost(v, e, d, s), e, d, s);
        WithinIs(Cost(v, e, d, s), s, r, fee);
        BrokenManyCost(v, e, n - 1, d);
      }
    }
  }

  lemma ManyFacts(v: Version, e: Shape, n: nat, d: nat, s: Stream)
    requires d <= COMPONENT_DEPTH
    ensures n == 0 ==> ManyCost(v, e, n, d, s) == 0
    ensures n > 0 ==> ManyCost(v, e, n, d, s) == Cost(v, e, d, s) + ManyCost(v, e, n - 1, d, Run(v, e, d, s))
  {
  }

  lemma OneMore(w: nat, n: nat)
    requires n > 0
    ensures w * n == w * (n - 1) + w && w * n >= 0
  {
  }

  lemma WithinIs(c: nat, s: Stream, r: nat, fee: nat)
    ensures Within(c, s, r, fee) == (c <= r * Left(s) + fee)
  {
  }

  lemma FirstPaid(c: nat, s: Stream, s': Stream, r: nat)
    requires PaidByBytes(c, s, s') && s'.At? && 3 <= r
    ensures c + r * Left(s') <= r * Left(s)
  {
    Dearer(Left(s) - Left(s'), 3, r);
    SplitRate(r, Left(s), Left(s'));
  }

  lemma {:induction false} StackBound(v: Version, d: nat, s: Stream)
    requires d <= COMPONENT_DEPTH
    ensures Within(StackCost(v, d, s), s, Rate(d), Fee(d))
    decreases COMPONENT_DEPTH + 1 - d, 0, 0
  {
    hide ComponentsCost, ListCount, AfterCount, Rate, Fee, Within, Left;
    var s1 := s.AfterVarInt().AfterVarInt();
    var s2 := AfterCount(s1);
    var s3 := AfterCount(s2);
    var n, m := ListCount(s1), ListCount(s2);
    ComponentsBound(v, n, d + 1, s3);
    CountsShrink(s);
    RateStep(d);
    assert StackCost(v, d, s) == 4 + ComponentsCost(v, n, d + 1, s3) + m;
    hide *;
    OneLevel(ComponentsCost(v, n, d + 1, s3), n, m, Left(s3), s, Rate(d + 1), Fee(d + 1));
  }

  lemma RateStep(d: nat)
    requires d <= COMPONENT_DEPTH
    ensures Rate(d) == Rate(d + 1) + LEVEL_RATE && Fee(d) == Fee(d + 1) + LEVEL_FEE
  {
  }

  lemma OneLevel(c: nat, n: nat, m: nat, left: nat, s: Stream, r: nat, fee: nat)
    requires n <= Left(s) && m <= Left(s) && left <= Left(s)
    requires c <= (r + MAX_WEIGHT) * left + (fee + MAX_WEIGHT + 1) + (MAX_WEIGHT + 1) * n
    ensures Within(4 + c + m, s, r + LEVEL_RATE, fee + LEVEL_FEE)
  {
    Dearer2(r + MAX_WEIGHT, left, Left(s));
    LevelSum(r, Left(s), n, m);
  }

  lemma Dearer2(r: nat, n: nat, n': nat)
    requires n <= n'
    ensures r * n <= r * n'
  {
  }

  lemma LevelSum(r: nat, n: nat, a: nat, b: nat)
    requires a <= n && b <= n
    ensures (r + MAX_WEIGHT) * n + (MAX_WEIGHT + 1) * a + b <= (r + LEVEL_RATE) * n
  {
    assert (r + LEVEL_RATE) * n == (r + MAX_WEIGHT) * n + (MAX_WEIGHT + 1) * n + n;
  }

  lemma CountRoom(s: Stream)
    ensures ListCount(s) <= Left(AfterCount(s))
  {
  }

  lemma CountsShrink(s: Stream)
    ensures var s1 := s.AfterVarInt().AfterVarInt();
            var s2 := AfterCount(s1);
            var s3 := AfterCount(s2);
            ListCount(s1) <= Left(s) && ListCount(s2) <= Left(s) && Left(s3) <= Left(s)
  {
    hide ListCount, AfterCount;
    var s1 := s.AfterVarInt().AfterVarInt();
    LeavesLess(s);
    LeavesLess(s.AfterVarInt());
    LeavesLess(s1);
    LeavesLess(AfterCount(s1));
    CountRoom(s1);
    CountRoom(AfterCount(s1));
  }

  lemma {:induction false} ComponentsBound(v: Version, n: nat, d: nat, s: Stream)
    requires d <= COMPONENT_DEPTH + 1
    ensures ComponentsCost(v, n, d, s)
         <= (Rate(d) + MAX_WEIGHT) * Left(s) + (Fee(d) + MAX_WEIGHT + 1) + (MAX_WEIGHT + 1) * n
    decreases COMPONENT_DEPTH + 1 - d, 3, n
  {
    hide Rate, Fee, RunComponent, ComponentCost;
    var r, fee := Rate(d) + MAX_WEIGHT, Fee(d) + MAX_WEIGHT + 1;
    RateAtLeast(d);
    if n == 0 {
      Dearer(Left(s), 0, r);
    } else {
      var t := s.AfterVarInt();
      var s1 := RunComponent(v, s.VarInt(), d, t);
      LeavesLess(s);
      ComponentBound(v, s.VarInt(), d, t);
      ReadThen(ComponentCost(v, s.VarInt(), d, t), s, t, r, r, fee - 1);
      if s1.At? {
        ComponentPaid(v, s.VarInt(), d, t);
        ComponentConsumes(v, s.VarInt(), d, s);
        ComponentsBound(v, n - 1, d, s1);
        FirstPaid(1 + ComponentCost(v, s.VarInt(), d, t), s, s1, r);
      } else {
        BrokenComponentsCost(v, n - 1, d);
      }
    }
  }

  lemma ComponentConsumes(v: Version, wire: int32, d: nat, s: Stream)
    requires d <= COMPONENT_DEPTH + 1
    requires var t := s.AfterVarInt();
             PaidByBytes(ComponentCost(v, wire, d, t), t, RunComponent(v, wire, d, t))
    ensures PaidByBytes(1 + ComponentCost(v, wire, d, s.AfterVarInt()), s, RunComponent(v, wire, d, s.AfterVarInt()))
  {
    hide RunComponent, ComponentCost;
    LeavesLess(s);
  }

  lemma {:induction false} ComponentBound(v: Version, wire: int32, d: nat, s: Stream)
    requires d <= COMPONENT_DEPTH + 1
    ensures Within(ComponentCost(v, wire, d, s), s, Rate(d) + MAX_WEIGHT, Fee(d) + MAX_WEIGHT)
    decreases COMPONENT_DEPTH + 1 - d, 2
  {
    hide ComponentShape, Run, Cost, Rate, Fee, WellShaped, Weight, Stacks;
    if d <= COMPONENT_DEPTH && CanonicalComponent(v, wire).Some? {
      var sh := ComponentShape(v.enc, CanonicalComponent(v, wire).value);
      ComponentTame(v.enc, CanonicalComponent(v, wire).value);
      ShapeBound(v, sh, d, s);
      WithinMore(Cost(v, sh, d, s), s,
                 Rate(d) + Weight(sh), Rate(d) + MAX_WEIGHT, ShapeFee(sh, d) + Weight(sh), Fee(d) + MAX_WEIGHT);
    } else {
      ZeroWithin(s, Rate(d) + MAX_WEIGHT, Fee(d) + MAX_WEIGHT);
    }
  }
}
