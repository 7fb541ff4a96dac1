/** What decoding the recipe book costs (`understudy/recipes.go`). A composite's children, a
recipe's ingredients and an entry's holder sets are counted by the packet and not checked
against its bytes, and a failed reader answers zeros without stopping the loops. So the work
is linear in the bytes exactly when a display of nothing but zeros is refused. */
module DisplayCost {
  import opened Words
  import opened Wire
  import opened Shapes
  import opened ShapeCodec
  import opened ShapeCost
  import opened Displays
  import opened RecipeBook

  // ------------------------------------------------------------ displays read off nothing

  /** The version reads id 0 as a kind that needs no bytes to name something: empty, any
      fuel, an item, a tag, or a composite of no children. */
  predicate NamesNothing(b: Book) {
    match b.Kind(0)
    case None => false
    case Some(kind) => kind == 0 || kind == 1 || kind == 4 || kind == 6 || kind == 10
  }

  /** Off a failed reader a display is named exactly when id 0 is such a kind. */
  lemma {:induction false} BrokenDisplay(b: Book, depth: nat)
    requires depth <= DISPLAY_DEPTH + 1
    ensures DisplayAt(b, depth, Broken).Named? <==> depth <= DISPLAY_DEPTH && NamesNothing(b)
    ensures DisplayAt(b, depth, Broken).Named? ==> DisplayAt(b, depth, Broken).after == Broken
    decreases DISPLAY_DEPTH + 1 - depth
  {
    if depth <= DISPLAY_DEPTH && b.Kind(0).Some? {
      BrokenDisplay(b, depth + 1);
      BrokenStackRefused(b);
      hide DisplayAt;
      BrokenKind(b, b.Kind(0).value, depth);
      DisplayIs(b, depth, Broken);
    }
  }

  lemma DisplayIs(b: Book, depth: nat, s: Stream)
    requires depth <= DISPLAY_DEPTH
    ensures b.Kind(s.VarInt()) == None ==> DisplayAt(b, depth, s) == Refused && DisplayWork(b, depth, s) == 1
    ensures b.Kind(s.VarInt()).Some? ==>
              var kind := b.Kind(s.VarInt()).value;
              && DisplayAt(b, depth, s) == KindAt(b, kind, depth, s.AfterVarInt())
              && DisplayWork(b, depth, s) == 1 + KindWork(b, kind, depth, s.AfterVarInt())
  {
    hide KindAt, KindWork;
  }

  lemma BrokenStackRefused(b: Book)
    ensures Run(b.v, Stack, 0, Broken) == Broken && Cost(b.v, Stack, 0, Broken) == 4
  {
    RunBroken(b.v, Stack, 0);
    BrokenStackCost(b.v, 0);
  }

  lemma BrokenKind(b: Book, kind: int32, depth: nat)
    requires depth <= DISPLAY_DEPTH && b.Kind(0) == Some(kind)
    requires DisplayAt(b, depth + 1, Broken).Named? <==> depth < DISPLAY_DEPTH && NamesNothing(b)
    ensures KindAt(b, kind, depth, Broken).Named? <==> NamesNothing(b)
    ensures KindAt(b, kind, depth, Broken).Named? ==> KindAt(b, kind, depth, Broken).after == Broken
    ensures KindWork(b, kind, depth, Broken) <= 5 + DisplayWork(b, depth + 1, Broken)
  {
    hide KindAt, KindWork, DisplayAt, DisplayWork;
    if NamesNothing(b) {
      NamingKind(b, kind, depth);
    } else {
      RefusingKind(b, kind, depth);
    }
  }

  lemma NamingKind(b: Book, kind: int32, depth: nat)
    requires depth <= DISPLAY_DEPTH && (kind == 0 || kind == 1 || kind == 4 || kind == 6 || kind == 10)
    ensures KindAt(b, kind, depth, Broken).Named? && KindAt(b, kind, depth, Broken).after == Broken
    ensures KindWork(b, kind, depth, Broken) <= 2
  {
    if kind == 10 {
      NoChildren(b, depth);
      hide AlternativesAt, AlternativesWork;
    } else {
      hide AlternativesAt, AlternativesWork, DisplayAt, DisplayWork;
    }
  }

  lemma NoChildren(b: Book, depth: nat)
    requires depth <= DISPLAY_DEPTH
    ensures AlternativesAt(b, 0, depth + 1, Broken, "") == Named("", Broken)
    ensures AlternativesWork(b, 0, depth + 1, Broken) == 0
  {
  }

  lemma RefusingKind(b: Book, kind: int32, depth: nat)
    requires depth <= DISPLAY_DEPTH && !(kind == 0 || kind == 1 || kind == 4 || kind == 6 || kind == 10)
    requires DisplayAt(b, depth + 1, Broken).Refused?
    ensures KindAt(b, kind, depth, Broken).Refused?
    ensures KindWork(b, kind, depth, Broken) <= 4 + DisplayWork(b, depth + 1, Broken)
  {
    BrokenStackRefused(b);
    hide DisplayAt, DisplayWork, AlternativesAt, AlternativesWork, Run, Cost;
    match kind
    case 2 =>
    case 3 =>
    case 5 =>
    case 7 => assert PairWork(b, depth, Broken) == DisplayWork(b, depth + 1, Broken);
    case 8 => assert TrimWork(b, depth, Broken) == DisplayWork(b, depth + 1, Broken);
    case 9 => assert PairWork(b, depth, Broken) == DisplayWork(b, depth + 1, Broken);
    case _ =>
  }

  const BROKEN_DISPLAY := 6 * (DISPLAY_DEPTH + 2)

  lemma TooDeep(b: Book, s: Stream)
    ensures DisplayAt(b, DISPLAY_DEPTH + 1, s) == Refused && DisplayWork(b, DISPLAY_DEPTH + 1, s) == 1
  {
  }

  lemma {:induction false} BrokenWork(b: Book, depth: nat)
    requires depth <= DISPLAY_DEPTH + 1
    ensures DisplayWork(b, depth, Broken) <= 6 * (DISPLAY_DEPTH + 2 - depth) <= BROKEN_DISPLAY
    decreases DISPLAY_DEPTH + 1 - depth
  {
    hide DisplayAt, DisplayWork, KindAt, KindWork;
    if depth == DISPLAY_DEPTH + 1 {
      TooDeep(b, Broken);
    } else {
      BrokenWork(b, depth + 1);
      BrokenDisplay(b, depth + 1);
      DisplayIs(b, depth, Broken);
      if b.Kind(0).Some? { BrokenKind(b, b.Kind(0).value, depth); }
    }
  }

  // ------------------------------------------------------------- while reads succeed

  /** A display that names something and leaves the reader sound paid for itself. */
  ghost predicate PaidFor(o: Outcome, work: nat, s: Stream) { o.Named? ==> PaidByBytes(work, s, o.after) }

  lemma {:induction false} DisplayPaid(b: Book, depth: nat, s: Stream)
    requires depth <= DISPLAY_DEPTH + 1
    ensures PaidFor(DisplayAt(b, depth, s), DisplayWork(b, depth, s), s)
    decreases DISPLAY_DEPTH + 1 - depth, 2
  {
    hide DisplayAt, DisplayWork, KindAt, KindWork, Stream.VarInt, Stream.AfterVarInt;
    if depth == DISPLAY_DEPTH + 1 {
      TooDeep(b, s);
    } else {
      DisplayIs(b, depth, s);
      OneRead(s);
      if b.Kind(s.VarInt()).Some? {
        KindPaid(b, b.Kind(s.VarInt()).value, depth, s.AfterVarInt());
      }
    }
  }

  lemma OneRead(s: Stream)
    ensures PaidByBytes(1, s, s.AfterVarInt()) && PaidByBytes(2, s, s.AfterString()) && Left(s.AfterVarInt()) <= Left(s)
  {
    LeavesLess(s);
  }

  lemma {:induction false} KindPaid(b: Book, kind: int32, depth: nat, s: Stream)
    requires depth <= DISPLAY_DEPTH
    ensures PaidFor(KindAt(b, kind, depth, s), KindWork(b, kind, depth, s), s)
    decreases DISPLAY_DEPTH + 1 - depth, 1
  {
    hide DisplayAt, DisplayWork, AlternativesAt, AlternativesWork, Run, Cost, Stream.VarInt, Stream.AfterVarInt,
      Stream.AfterString;
    OneRead(s);
    match kind
    case 2 => DisplayPaid(b, depth + 1, s);
    case 3 =>
      DisplayPaid(b, depth + 1, s);
      if DisplayAt(b, depth + 1, s).Named? { OneRead(DisplayAt(b, depth + 1, s).after); }
    case 5 => RunPaid(b.v, Stack, 0, s);
    case 7 => PairPaid(b, depth, s);
    case 8 =>
      PairPaid(b, depth, s);
      TrimPaid(b, depth, s);
    case 9 => PairPaid(b, depth, s);
    case 10 =>
      AlternativesPaid(b, Rounds(s.VarInt()), depth + 1, s.AfterVarInt(), "");
    case _ =>
  }

  lemma {:induction false} PairPaid(b: Book, depth: nat, s: Stream)
    requires depth <= DISPLAY_DEPTH
    ensures var one := DisplayAt(b, depth + 1, s);
            one.Named? && DisplayAt(b, depth + 1, one.after).Named? ==>
              PaidByBytes(PairWork(b, depth, s), s, DisplayAt(b, depth + 1, one.after).after)
    decreases DISPLAY_DEPTH + 1 - depth, 0
  {
    hide DisplayAt, DisplayWork;
    DisplayPaid(b, depth + 1, s);
    if DisplayAt(b, depth + 1, s).Named? {
      DisplayPaid(b, depth + 1, DisplayAt(b, depth + 1, s).after);
    }
  }

  lemma TrimPaid(b: Book, depth: nat, s: Stream)
    requires depth <= DISPLAY_DEPTH
    requires var one := DisplayAt(b, depth + 1, s);
             one.Named? && DisplayAt(b, depth + 1, one.after).Named? ==>
               PaidByBytes(PairWork(b, depth, s), s, DisplayAt(b, depth + 1, one.after).after)
    ensures PaidFor(TrimAt(b, depth, s), TrimWork(b, depth, s), s)
  {
    hide DisplayAt, DisplayWork, PairWork, Stream.VarInt, Stream.AfterVarInt;
    var one := DisplayAt(b, depth + 1, s);
    if one.Named? && DisplayAt(b, depth + 1, one.after).Named? {
      OneRead(DisplayAt(b, depth + 1, one.after).after);
    }
  }

  lemma AlternativesStep(b: Book, n: nat, depth: nat, s: Stream, first: string)
    requires depth <= DISPLAY_DEPTH + 1
    ensures n == 0 ==> AlternativesAt(b, n, depth, s, first) == Named(first, s) && AlternativesWork(b, n, depth, s) == 0
    ensures n > 0 ==>
              var child := DisplayAt(b, depth, s);
              if child.Refused? then
                && AlternativesAt(b, n, depth, s, first) == Refused
                && AlternativesWork(b, n, depth, s) == DisplayWork(b, depth, s)
              else
                && AlternativesAt(b, n, depth, s, first)
                == AlternativesAt(b, n - 1, depth, child.after, if first == "" then child.name else first)
                && AlternativesWork(b, n, depth, s)
                == DisplayWork(b, depth, s) + AlternativesWork(b, n - 1, depth, child.after)
  {
    hide DisplayAt, DisplayWork;
  }

  lemma {:induction false} AlternativesPaid(b: Book, n: nat, depth: nat, s: Stream, first: string)
    requires depth <= DISPLAY_DEPTH + 1
    ensures PaidFor(AlternativesAt(b, n, depth, s, first), AlternativesWork(b, n, depth, s), s)
    decreases DISPLAY_DEPTH + 1 - depth, 3, n
  {
    hide DisplayAt, DisplayWork, AlternativesAt, AlternativesWork;
    AlternativesStep(b, n, depth, s, first);
    if n > 0 {
      var child := DisplayAt(b, depth, s);
      DisplayPaid(b, depth, s);
      if child.Named? {
        AlternativesPaid(b, n - 1, depth, child.after, if first == "" then child.name else first);
      }
    }
  }

  // --------------------------------------------------------------------- on any bytes

  const DISPLAY_RATE := Rate(0)
  const DISPLAY_LEVEL := BROKEN_DISPLAY + 8

  /** What the bytes left pay for. */
  function PerByte(s: Stream): nat { DISPLAY_RATE * Left(s) }

  function DisplayFee(depth: nat): nat
    requires depth <= DISPLAY_DEPTH + 1
  {
    Fee(0) + DISPLAY_LEVEL * (DISPLAY_DEPTH + 2 - depth)
  }

  /** No id of this version is read as a composite. */
  ghost predicate NoComposites(b: Book) { forall wire: int32 :: b.Kind(wire) != Some(10) }

  /** A part that may go on, and what follows it: paid for while the reader is sound, and
      bounded off a failed one. */
  lemma PartThen(c1: nat, c2: nat, s: Stream, o: Outcome, fee: nat)
    requires o.Named? && PaidByBytes(c1, s, o.after) && c1 <= PerByte(s) + fee
    requires if o.after.At? then c2 <= PerByte(o.after) + fee + BROKEN_DISPLAY else c2 <= BROKEN_DISPLAY
    ensures c1 + c2 <= PerByte(s) + fee + BROKEN_DISPLAY
  {
    RateAtLeast(0);
    hide Rate;
    if o.after.At? {
      FirstPaid(c1, s, o.after, DISPLAY_RATE);
    }
  }

  lemma LessLeft(s: Stream, s': Stream)
    requires Left(s') <= Left(s)
    ensures PerByte(s') <= PerByte(s)
  {
    Dearer2(DISPLAY_RATE, Left(s'), Left(s));
  }

  lemma {:induction false} DisplayBound(b: Book, depth: nat, s: Stream)
    requires depth <= DISPLAY_DEPTH + 1 && (!NamesNothing(b) || NoComposites(b))
    ensures DisplayWork(b, depth, s) <= PerByte(s) + DisplayFee(depth)
    decreases DISPLAY_DEPTH + 1 - depth, 2
  {
    LevelStep(depth);
    hide DisplayAt, DisplayWork, KindAt, KindWork, Stream.VarInt, Stream.AfterVarInt, Rate, Fee, DisplayFee, Left,
      PerByte;
    if depth == DISPLAY_DEPTH + 1 {
      TooDeep(b, s);
    } else {
      DisplayIs(b, depth, s);
      OneRead(s);
      LessLeft(s, s.AfterVarInt());
      if b.Kind(s.VarInt()).Some? {
        KindBound(b, s.VarInt(), depth, s.AfterVarInt());
      }
    }
  }

  lemma LevelStep(depth: nat)
    requires depth <= DISPLAY_DEPTH + 1
    ensures DisplayFee(depth) >= Fee(0) + DISPLAY_LEVEL
    ensures depth <= DISPLAY_DEPTH ==> DisplayFee(depth) == DisplayFee(depth + 1) + DISPLAY_LEVEL
  {
  }

  lemma {:induction false} KindBound(b: Book, wire: int32, depth: nat, s: Stream)
    requires depth <= DISPLAY_DEPTH && (!NamesNothing(b) || NoComposites(b)) && b.Kind(wire).Some?
    ensures KindWork(b, b.Kind(wire).value, depth, s) <= PerByte(s) + DisplayFee(depth + 1) + BROKEN_DISPLAY + 4
    decreases DISPLAY_DEPTH + 1 - depth, 1
  {
    LevelStep(depth + 1);
    KindParts(b, b.Kind(wire).value, depth, s);
    assert b.Kind(wire).value == 10 ==> !NamesNothing(b);
    hide NoComposites, KindWork, KindAt, TrimAt, Rounds, Book.Kind, DisplayAt, DisplayWork, AlternativesAt,
      AlternativesWork, PairWork, Cost, Stream.VarInt, Stream.AfterVarInt, Rate, Fee, DisplayFee, Left, PerByte,
      NamesNothing;
    var kind := b.Kind(wire).value;
    if kind == 2 || kind == 3 {
      DisplayBound(b, depth + 1, s);
    } else if kind == 5 {
      StackWorkBound(b, s);
    } else if kind == 7 || kind == 8 || kind == 9 {
      PairBound(b, depth, s);
    } else if kind == 10 {
      CompositeBound(b, depth, s);
    }
  }

  lemma {:induction false} CompositeBound(b: Book, depth: nat, s: Stream)
    requires depth <= DISPLAY_DEPTH && !NamesNothing(b)
    ensures AlternativesWork(b, Rounds(s.VarInt()), depth + 1, s.AfterVarInt())
         <= PerByte(s) + DisplayFee(depth + 1) + BROKEN_DISPLAY
    decreases DISPLAY_DEPTH + 1 - depth, 0
  {
    hide AlternativesWork, Stream.VarInt, Stream.AfterVarInt, Rate, Fee, DisplayFee, Left, PerByte, NamesNothing;
    OneRead(s);
    LessLeft(s, s.AfterVarInt());
    AlternativesBound(b, Rounds(s.VarInt()), depth + 1, s.AfterVarInt());
  }

  /** The work of a kind is that of its parts and at most two reads. */
  lemma KindParts(b: Book, kind: int32, depth: nat, s: Stream)
    requires depth <= DISPLAY_DEPTH
    ensures kind == 2 || kind == 3 ==> KindWork(b, kind, depth, s) <= 2 + DisplayWork(b, depth + 1, s)
    ensures kind == 5 ==> KindWork(b, kind, depth, s) == Cost(b.v, Stack, 0, s)
    ensures kind == 7 || kind == 8 || kind == 9 ==> KindWork(b, kind, depth, s) <= 2 + PairWork(b, depth, s)
    ensures kind == 10 ==>
              KindWork(b, kind, depth, s) == 1 + AlternativesWork(b, Rounds(s.VarInt()), depth + 1, s.AfterVarInt())
    ensures !(kind == 2 || kind == 3 || kind == 5 || 7 <= kind <= 10) ==> KindWork(b, kind, depth, s) <= 2
  {
    TrimIsPair(b, depth, s);
    hide DisplayAt, DisplayWork, AlternativesAt, AlternativesWork, PairWork, TrimWork, Run, Cost, Stream.VarInt,
      Stream.AfterVarInt;
  }

  lemma TrimIsPair(b: Book, depth: nat, s: Stream)
    requires depth <= DISPLAY_DEPTH
    ensures TrimWork(b, depth, s) <= PairWork(b, depth, s) + 1
  {
  }

  lemma StackWorkBound(b: Book, s: Stream)
    ensures Cost(b.v, Stack, 0, s) <= PerByte(s) + Fee(0)
  {
    StackBound(b.v, 0, s);
    hide StackCost, Rate, Fee;
    assert Cost(b.v, Stack, 0, s) == StackCost(b.v, 0, s);
  }

  lemma {:induction false} PairBound(b: Book, depth: nat, s: Stream)
    requires depth <= DISPLAY_DEPTH && (!NamesNothing(b) || NoComposites(b))
    ensures PairWork(b, depth, s) <= PerByte(s) + DisplayFee(depth + 1) + BROKEN_DISPLAY
    decreases DISPLAY_DEPTH + 1 - depth, 0
  {
    hide DisplayAt, DisplayWork, Rate, Fee, DisplayFee, PerByte;
    DisplayBound(b, depth + 1, s);
    var one := DisplayAt(b, depth + 1, s);
    if one.Named? {
      DisplayPaid(b, depth + 1, s);
      DisplayBound(b, depth + 1, one.after);
      BrokenWork(b, depth + 1);
      PartThen(DisplayWork(b, depth + 1, s), DisplayWork(b, depth + 1, one.after), s, one, DisplayFee(depth + 1));
    }
  }

  /** Children on any bytes, when a failed reader's display is refused: no more than one is
      begun off it. */
  lemma {:induction false} AlternativesBound(b: Book, n: nat, depth: nat, s: Stream)
    requires depth <= DISPLAY_DEPTH + 1 && !NamesNothing(b)
    ensures AlternativesWork(b, n, depth, s) <= PerByte(s) + DisplayFee(depth) + BROKEN_DISPLAY
    decreases DISPLAY_DEPTH + 1 - depth, 3, n
  {
    hide DisplayAt, DisplayWork, AlternativesAt, AlternativesWork, Rate, Fee, DisplayFee, Left, PerByte;
    AlternativesStep(b, n, depth, s, "");
    if n > 0 {
      var child := DisplayAt(b, depth, s);
      DisplayBound(b, depth, s);
      if child.Named? {
        DisplayPaid(b, depth, s);
        AlternativesBound(b, n - 1, depth, child.after);
        BrokenAlternatives(b, n - 1, depth);
        PartThen(DisplayWork(b, depth, s), AlternativesWork(b, n - 1, depth, child.after), s, child, DisplayFee(depth));
      }
    }
  }

  lemma BrokenAlternatives(b: Book, n: nat, depth: nat)
    requires depth <= DISPLAY_DEPTH + 1 && !NamesNothing(b)
    ensures AlternativesWork(b, n, depth, Broken) <= BROKEN_DISPLAY
  {
    hide DisplayAt, DisplayWork, AlternativesAt, AlternativesWork;
    AlternativesStep(b, n, depth, Broken, "");
    BrokenDisplay(b, depth);
    BrokenWork(b, depth);
  }

  // ------------------------------------------------------------------- exactly when

  /** Off a reader out of bytes, a display that nothing satisfies is read for every child
      claimed. */
  lemma {:induction false} ChildrenOfNothing(b: Book, n: nat, depth: nat, s: Stream, first: string)
    requires depth <= DISPLAY_DEPTH && NamesNothing(b) && s.Remaining() == []
    ensures AlternativesWork(b, n, depth, s) >= n && AlternativesAt(b, n, depth, s, first).Named?
    decreases n
  {
    hide DisplayAt, DisplayWork, AlternativesAt, AlternativesWork, KindAt, KindWork;
    AlternativesStep(b, n, depth, s, first);
    if n > 0 {
      OutOfBytes(b, depth, s);
      ChildrenOfNothing(b, n - 1, depth, Broken, if first == "" then DisplayAt(b, depth, s).name else first);
    }
  }

  lemma OutOfBytes(b: Book, depth: nat, s: Stream)
    requires depth <= DISPLAY_DEPTH && NamesNothing(b) && s.Remaining() == []
    ensures DisplayAt(b, depth, s).Named? && DisplayAt(b, depth, s).after == Broken && DisplayWork(b, depth, s) >= 1
  {
    hide DisplayAt, DisplayWork, KindAt, KindWork;
    assert s.VarInt() == 0 && s.AfterVarInt() == Broken;
    DisplayIs(b, depth, s);
    DisplayIs(b, depth, Broken);
    BrokenDisplay(b, depth);
  }

  /** At most ten bytes, an id of a composite and a count, stand for as many displays as the
      count says. */
  lemma CompositeOfNothing(b: Book, wire: int32, n: int32)
    requires NamesNothing(b) && b.Kind(wire) == Some(10) && n > 0
    ensures var s := At(VarIntBytes(wire) + VarIntBytes(n));
            Left(s) <= 10 && DisplayAt(b, 0, s).Named? && DisplayWork(b, 0, s) >= n
  {
    hide DisplayAt, DisplayWork, AlternativesAt, AlternativesWork, VarIntBytes, Stream.VarInt, Stream.AfterVarInt;
    var tail := VarIntBytes(n);
    var s := At(VarIntBytes(wire) + tail);
    VarIntRoundTrip(wire, tail);
    VarIntRoundTrip(n, []);
    VarIntAt(wire, tail);
    assert tail == tail + [];
    VarIntAt(n, []);
    DisplayIs(b, 0, s);
    ChildrenOfNothing(b, n, 1, At([]), "");
  }

  /** Ten bytes and every fee pay for less than the largest count. */
  lemma TenBytesPay(s: Stream)
    requires Left(s) <= 10
    ensures PerByte(s) + DisplayFee(0) < 0x7fff_ffff && 3 * PerByte(s) + RECIPE_FEE < 0x7fff_ffff
  {
    Dearer2(DISPLAY_RATE, Left(s), 10);
  }

  /** Decoding a display takes work linear in the bytes, on any bytes, exactly when a display
      of zeros is refused, or the version has no composites. */
  lemma DisplayLinearIff(b: Book)
    ensures (forall s :: DisplayWork(b, 0, s) <= PerByte(s) + DisplayFee(0))
       <==> !NamesNothing(b) || NoComposites(b)
  {
    hide DisplayWork, PerByte, DisplayFee, Left, VarIntBytes, NamesNothing;
    if !NamesNothing(b) || NoComposites(b) {
      forall s ensures DisplayWork(b, 0, s) <= PerByte(s) + DisplayFee(0) { DisplayBound(b, 0, s); }
    } else {
      var wire: int32 :| b.Kind(wire) == Some(10);
      var s := At(VarIntBytes(wire) + VarIntBytes(0x7fff_ffff));
      CompositeOfNothing(b, wire, 0x7fff_ffff);
      TenBytesPay(s);
      assert DisplayWork(b, 0, s) > PerByte(s) + DisplayFee(0);
    }
  }

  /** A version without a table reads ids as they are: displays of nothing, and composites. */
  lemma NoTableNotLinear(b: Book)
    requires b.kinds == map[]
    ensures !forall s :: DisplayWork(b, 0, s) <= PerByte(s) + DisplayFee(0)
  {
    DisplayLinearIff(b);
    assert b.Kind(10) == Some(10);
  }

  // ------------------------------------------------------------------------- recipes

  const RECIPE_FEE := 3 * DisplayFee(0) + 3 * BROKEN_DISPLAY + 4

  lemma SlotsPieces(b: Book, before: nat, after: nat, s: Stream)
    requires !NamesNothing(b)
    ensures SlotsWork(b, before, after, s) <= 3 * PerByte(s) + 3 * DisplayFee(0) + 3 * BROKEN_DISPLAY
    ensures SlotsAt(b, before, after, s).Named? ==>
              PaidByBytes(SlotsWork(b, before, after, s), s, SlotsAt(b, before, after, s).after)
  {
    hide DisplayAt, DisplayWork, AlternativesAt, AlternativesWork, Rate, Fee, DisplayFee, PerByte;
    AlternativesBound(b, before, 0, s);
    AlternativesPaid(b, before, 0, s, "");
    var pre := AlternativesAt(b, before, 0, s, "");
    if pre.Named? {
      AfterLess(AlternativesWork(b, before, 0, s), s, pre.after);
      DisplayBound(b, 0, pre.after);
      DisplayPaid(b, 0, pre.after);
      var result := DisplayAt(b, 0, pre.after);
      if result.Named? {
        AfterLess(DisplayWork(b, 0, pre.after), pre.after, result.after);
        AlternativesBound(b, after, 0, result.after);
        AlternativesPaid(b, after, 0, result.after, "");
      }
    }
  }

  lemma AfterLess(c: nat, s: Stream, s': Stream)
    requires PaidByBytes(c, s, s')
    ensures Left(s') <= Left(s) && PerByte(s') <= PerByte(s)
  {
    Dearer2(DISPLAY_RATE, Left(s'), Left(s));
  }

  lemma RecipeBound(b: Book, s: Stream)
    requires !NamesNothing(b)
    ensures RecipeWork(b, s) <= 3 * PerByte(s) + RECIPE_FEE
  {
    hide SlotsWork, SlotsAt, Stream.VarInt, Stream.AfterVarInt, Rate, Fee, DisplayFee, Left, PerByte;
    var t := s.AfterVarInt();
    var u := t.AfterVarInt().AfterVarInt();
    Shorter(s);
    Shorter(t);
    Shorter(t.AfterVarInt());
    Shorter(u);
    SlotsPieces(b, Rounds(t.VarInt()), 1, t.AfterVarInt());
    SlotsPieces(b, Rounds(u.VarInt()), 1, u.AfterVarInt());
    SlotsPieces(b, 2, 1, t);
    SlotsPieces(b, 1, 1, t);
    SlotsPieces(b, 3, 1, t);
  }

  lemma Shorter(s: Stream)
    ensures PerByte(s.AfterVarInt()) <= PerByte(s)
  {
    OneRead(s);
    LessLeft(s, s.AfterVarInt());
  }

  /** A shapeless recipe of as many ingredients as a count says, in at most ten bytes. */
  lemma IngredientsOfNothing(b: Book, n: int32)
    requires NamesNothing(b) && n > 0
    ensures var s := At(VarIntBytes(0) + VarIntBytes(n)); Left(s) <= 10 && RecipeWork(b, s) >= n
  {
    hide AlternativesAt, AlternativesWork, DisplayAt, DisplayWork, VarIntBytes, Stream.VarInt, Stream.AfterVarInt;
    var tail := VarIntBytes(n);
    VarIntRoundTrip(0, tail);
    VarIntRoundTrip(n, []);
    VarIntAt(0, tail);
    assert tail == tail + [];
    VarIntAt(n, []);
    ChildrenOfNothing(b, n, 0, At([]), "");
  }

  /** Decoding a recipe takes work linear in the bytes, on any bytes, exactly when a display
      of zeros is refused. */
  lemma RecipeLinearIff(b: Book)
    ensures (forall s :: RecipeWork(b, s) <= 3 * PerByte(s) + RECIPE_FEE) <==> !NamesNothing(b)
  {
    hide RecipeWork, PerByte, DisplayFee, Left, VarIntBytes, NamesNothing;
    if !NamesNothing(b) {
      forall s ensures RecipeWork(b, s) <= 3 * PerByte(s) + RECIPE_FEE { RecipeBound(b, s); }
    } else {
      var s := At(VarIntBytes(0) + VarIntBytes(0x7fff_ffff));
      IngredientsOfNothing(b, 0x7fff_ffff);
      TenBytesPay(s);
      assert RecipeWork(b, s) > 3 * PerByte(s) + RECIPE_FEE;
    }
  }

  // ------------------------------------------------------------------- holder sets

  /** A failed reader never stops the round: each set claimed costs three reads even of
      nothing. */
  lemma {:induction false} SetsOfNothing(v: Version, n: nat, s: Stream)
    requires s.Remaining() == []
    ensures ManyCost(v, IdSet, n, 0, s) == 3 * n && (n > 0 ==> RunMany(v, IdSet, n, 0, s) == Broken)
    decreases n
  {
    hide ManyCost, RunMany;
    NoSets(v, s);
    if n > 0 {
      OneIdSet(v, n, s);
      assert s.VarInt() == 0 && s.AfterVarInt() == Broken && AfterIdSet(s) == Broken && IdCount(s) == 0;
      SetsOfNothing(v, n - 1, Broken);
      NoSets(v, Broken);
    }
  }

  lemma NoSets(v: Version, s: Stream)
    ensures ManyCost(v, IdSet, 0, 0, s) == 0 && RunMany(v, IdSet, 0, 0, s) == s
  {
  }

  /** The cost of a round: three reads for each set claimed, and at most three more for each
      byte there is. */
  lemma {:induction false} SetsCost(v: Version, n: nat, s: Stream)
    ensures 3 * n <= ManyCost(v, IdSet, n, 0, s) <= 3 * n + 3 * Left(s)
    ensures RunMany(v, IdSet, n, 0, s).At? ==> n <= Left(s) && ManyCost(v, IdSet, n, 0, s) <= 3 * Left(s)
    decreases n
  {
    hide ManyCost, RunMany, AfterIdSet, IdCount;
    NoSets(v, s);
    if n > 0 {
      OneIdSet(v, n, s);
      IdSetPaid(s);
      IdSetConsumes(s);
      SetsCost(v, n - 1, AfterIdSet(s));
      SetsOfNothing(v, n - 1, Broken);
      NoSets(v, Broken);
    }
  }

  lemma IdSetConsumes(s: Stream)
    ensures IdCount(s) <= Left(s)
    ensures AfterIdSet(s).At? ==> s.At? && Left(AfterIdSet(s)) + 1 + IdCount(s) <= Left(s)
  {
    hide Stream.VarInt, Stream.AfterVarInt, Stream.AfterString, AfterVarInts;
    ReadsConsume(s, 0);
    ReadsConsume(s.AfterVarInt(), 0);
    if s.VarInt() > 0 { VarIntsConsume(s.AfterVarInt(), IdCount(s)); }
  }

  /** A round of n sets stays within three reads a byte and a fee, on any bytes, exactly when
      the fee pays for every set claimed; so no one fee will do for every count. A count the
      bytes can hold costs at most six reads a byte. */
  lemma SetsLinearIff(v: Version, n: nat, fee: nat)
    ensures (forall s :: ManyCost(v, IdSet, n, 0, s) <= 3 * Left(s) + fee) <==> 3 * n <= fee
    ensures forall s | n <= Left(s) :: ManyCost(v, IdSet, n, 0, s) <= 6 * Left(s)
  {
    hide ManyCost;
    SetsOfNothing(v, n, At([]));
    assert Left(At([])) == 0;
    forall s ensures 3 * n <= ManyCost(v, IdSet, n, 0, s) <= 3 * n + 3 * Left(s) { SetsCost(v, n, s); }
    if forall s :: ManyCost(v, IdSet, n, 0, s) <= 3 * Left(s) + fee {
      assert ManyCost(v, IdSet, n, 0, At([])) <= 3 * Left(At([])) + fee;
    }
  }
}
