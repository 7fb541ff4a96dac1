/** What the recipe book's readers refuse (`understudy/recipes.go`): displays of a kind they do
not know, patterns defined inline, displays nested more than 32 deep, unknown recipes. An
entry that does not read ends the packet, with those before it learned. */
module DisplayRefusals {
  import opened Words
  import opened Wire
  import opened Shapes
  import opened ShapeCodec
  import opened Displays
  import opened Recipes
  import opened RecipeBook

  /** A kind the version does not have, or one this client does not know. */
  lemma UnknownKind(b: Book, wire: int32, depth: nat, rest: bytes)
    requires depth <= 32 && (b.Kind(wire) == None || b.Kind(wire).value < 0 || b.Kind(wire).value > 10)
    ensures DisplayAt(b, depth, At(VarIntBytes(wire) + rest)) == Refused
  {
    VarIntAt(wire, rest);
  }

  /** A trim pattern defined inline. */
  lemma InlinePattern(b: Book, wire: int32, base: Display, of: Display, depth: nat, rest: bytes)
    requires depth <= 32 && b.Kind(wire) == Some(8) && DisplayFits(b, base, depth + 1) && DisplayFits(b, of, depth + 1)
    ensures var trim := DisplayBytes(b.v, base) + (DisplayBytes(b.v, of) + (VarIntBytes(0) + rest));
            DisplayAt(b, depth, At(VarIntBytes(wire) + trim)) == Refused
  {
    hide TrimAt, DisplayBytes, DisplayFits, VarIntBytes, Stream.VarInt, Stream.AfterVarInt;
    VarIntAt(wire, DisplayBytes(b.v, base) + (DisplayBytes(b.v, of) + (VarIntBytes(0) + rest)));
    InlineTrim(b, base, of, depth, rest);
  }

  lemma InlineTrim(b: Book, base: Display, of: Display, depth: nat, rest: bytes)
    requires depth <= 32 && DisplayFits(b, base, depth + 1) && DisplayFits(b, of, depth + 1)
    ensures TrimAt(b, depth, At(DisplayBytes(b.v, base) + (DisplayBytes(b.v, of) + (VarIntBytes(0) + rest)))) == Refused
  {
    hide DisplayAt, DisplayBytes, DisplayFits, VarIntBytes, Stream.VarInt, Stream.AfterVarInt;
    DisplayRoundTrip(b, base, depth + 1, DisplayBytes(b.v, of) + (VarIntBytes(0) + rest));
    DisplayRoundTrip(b, of, depth + 1, VarIntBytes(0) + rest);
    VarIntAt(0, rest);
  }

  /** Any potion of any potion of ... an item, n deep. */
  function Nest(wire: int32, item: int32, n: nat): Display {
    if n == 0 then OfItem(item, 0) else AnyPotion(wire, Nest(wire, item, n - 1))
  }

  /** Nested past the thirty-second level a display is refused; up to it, it is not. */
  lemma {:induction false} NestedTooDeep(b: Book, wire: int32, item: int32, n: nat, depth: nat, rest: bytes)
    requires depth <= 33 && b.Kind(wire) == Some(2) && b.Kind(item) == Some(4)
    ensures DisplayAt(b, depth, At(DisplayBytes(b.v, Nest(wire, item, n)) + rest))
         == if depth + n > 32 then Refused else Named(b.names(0), At(rest))
    decreases n
  {
    hide VarIntBytes, Book.Kind, Stream.VarInt, Stream.AfterVarInt;
    if n == 0 {
      assert DisplayBytes(b.v, Nest(wire, item, n)) + rest == VarIntBytes(item) + (VarIntBytes(0) + rest);
      VarIntAt(item, VarIntBytes(0) + rest);
      VarIntAt(0, rest);
    } else {
      var inner := DisplayBytes(b.v, Nest(wire, item, n - 1));
      assert DisplayBytes(b.v, Nest(wire, item, n)) + rest == VarIntBytes(wire) + (inner + rest);
      VarIntAt(wire, inner + rest);
      if depth <= 32 { NestedTooDeep(b, wire, item, n - 1, depth + 1, rest); }
    }
  }

  lemma UnknownRecipe(b: Book, kind: int32, rest: bytes)
    requires kind < 0 || kind > 4
    ensures RecipeAt(b, At(VarIntBytes(kind) + rest)) == Refused
  {
    VarIntAt(kind, rest);
  }

  /** Entries, then anything: the entries are read, and what follows them is taken up. */
  lemma {:induction false} UpToEntries(b: Book, es: seq<Entry>, n: nat, end: bytes)
    requires (forall e | e in es :: EntryFits(b, e)) && n >= |es|
    ensures EntriesAt(b, n, At(EntriesBytes(b.v, es) + end)) == Makes(b, es) + EntriesAt(b, n - |es|, At(end))
    decreases |es|
  {
    hide RecipeAt, AfterEntry, EntryFits, RecipeBytes, TailBytes, VarIntBytes, Name, Stream.VarInt, Stream.AfterVarInt;
    if es == [] {
      assert EntriesBytes(b.v, es) + end == end;
    } else {
      var e, more := es[0], EntriesBytes(b.v, es[1..]) + end;
      assert e in es;
      assert EntryFits(b, e) ==> RecipeFits(b, e.recipe) by { EntryFitsRecipe(b, e); }
      assert EntriesBytes(b.v, es) + end
          == VarIntBytes(e.id) + (RecipeBytes(b.v, e.recipe) + (TailBytes(b.v, e) + more));
      VarIntAt(e.id, RecipeBytes(b.v, e.recipe) + (TailBytes(b.v, e) + more));
      RecipeRoundTrip(b, e.recipe, TailBytes(b.v, e) + more);
      TailAt(b, e, more);
      UpToEntries(b, es[1..], n - 1, end);
    }
  }

  /** Entries, then one of an unknown recipe: those before it are all there is. */
  lemma StopsAtUnknown(b: Book, es: seq<Entry>, n: nat, id: int32, kind: int32, rest: bytes)
    requires (forall e | e in es :: EntryFits(b, e)) && n > |es| && (kind < 0 || kind > 4)
    ensures EntriesAt(b, n, At(EntriesBytes(b.v, es) + (VarIntBytes(id) + (VarIntBytes(kind) + rest)))) == Makes(b, es)
  {
    hide RecipeAt, EntriesBytes, EntryFits, VarIntBytes, Stream.VarInt, Stream.AfterVarInt;
    UpToEntries(b, es, n, VarIntBytes(id) + (VarIntBytes(kind) + rest));
    VarIntAt(id, VarIntBytes(kind) + rest);
    UnknownRecipe(b, kind, rest);
  }

  /** Entries, then one that ends within the four bytes or more its recipe is followed by: it
      is not learned. */
  lemma StopsAtShort(b: Book, es: seq<Entry>, n: nat, id: int32, recipe: Recipe, tail: bytes)
    requires (forall e | e in es :: EntryFits(b, e)) && n > |es| && RecipeFits(b, recipe) && |tail| < 4
    ensures EntriesAt(b, n, At(EntriesBytes(b.v, es) + (VarIntBytes(id) + (RecipeBytes(b.v, recipe) + tail))))
         == Makes(b, es)
  {
    hide RecipeAt, AfterEntry, EntriesBytes, EntryFits, RecipeFits, RecipeBytes, VarIntBytes, Stream.VarInt,
      Stream.AfterVarInt;
    UpToEntries(b, es, n, VarIntBytes(id) + (RecipeBytes(b.v, recipe) + tail));
    VarIntAt(id, RecipeBytes(b.v, recipe) + tail);
    RecipeRoundTrip(b, recipe, tail);
    ShortTail(b, At(tail));
  }

  lemma ShortTail(b: Book, s: Stream)
    requires |s.Remaining()| < 4
    ensures AfterEntry(b, s).Broken?
  {
    hide Stream.VarInt, Stream.AfterVarInt, Stream.Skip, Stream.Peek, RunMany;
    var category := s.AfterVarInt();
    var flag := category.AfterVarInt();
    var sets := flag.Skip(1);
    ReadsConsume(s, 0);
    ReadsConsume(category, 0);
    ReadsConsume(flag, 1);
    ReadsConsume(sets, 1);
    ManyBroken(b.v, IdSet, Rounds(sets.VarInt()), 0);
    SkipBroken();
  }

  lemma SkipBroken()
    ensures Broken.Skip(1) == Broken
  {
  }
}
