/** Recipes and the packet that teaches the client its recipe book
(`understudy/recipes.go`, handleRecipeBook and readRecipeDisplay). */
module RecipeBook {
  import opened Words
  import opened Wire
  import opened Shapes
  import opened ShapeCodec
  import opened Displays
  import opened Recipes
  import opened FieldSkippers
  import opened ShapeCost
  import Plans

  const MAX_RECIPE_ENTRIES := 16384

  // ------------------------------------------------------------- what the bytes teach

  /** Some displays, then the result, then some more; the result names it. */
  ghost function SlotsAt(b: Book, before: nat, after: nat, s: Stream): Outcome {
    var pre := AlternativesAt(b, before, 0, s, "");
    if pre.Refused? then Refused
    else
      var result := DisplayAt(b, 0, pre.after);
      if result.Refused? then Refused
      else
        var post := AlternativesAt(b, after, 0, result.after, "");
        if post.Refused? then Refused else Named(result.name, post.after)
  }

  ghost function RecipeAt(b: Book, s: Stream): Outcome {
    var t := s.AfterVarInt();
    match s.VarInt()
    case 0 => SlotsAt(b, Rounds(t.VarInt()), 1, t.AfterVarInt())
    case 1 =>
      var u := t.AfterVarInt().AfterVarInt();
      SlotsAt(b, Rounds(u.VarInt()), 1, u.AfterVarInt())
    case 2 =>
      var o := SlotsAt(b, 2, 1, t);
      if o.Refused? || o.after.AfterVarInt().Skip(4).Broken? then Refused
      else Named(o.name, o.after.AfterVarInt().Skip(4))
    case 3 => SlotsAt(b, 1, 1, t)
    case 4 => SlotsAt(b, 3, 1, t)
    case _ => Refused
  }

  /** The work of those, wherever the walk stops. */
  ghost function SlotsWork(b: Book, before: nat, after: nat, s: Stream): nat {
    var pre := AlternativesAt(b, before, 0, s, "");
    AlternativesWork(b, before, 0, s) +
    if pre.Refused? then 0
    else
      var result := DisplayAt(b, 0, pre.after);
      DisplayWork(b, 0, pre.after) + if result.Refused? then 0 else AlternativesWork(b, after, 0, result.after)
  }

  ghost function RecipeWork(b: Book, s: Stream): nat {
    var t := s.AfterVarInt();
    match s.VarInt()
    case 0 => 2 + SlotsWork(b, Rounds(t.VarInt()), 1, t.AfterVarInt())
    case 1 =>
      var u := t.AfterVarInt().AfterVarInt();
      4 + SlotsWork(b, Rounds(u.VarInt()), 1, u.AfterVarInt())
    case 2 => 1 + SlotsWork(b, 2, 1, t) + if SlotsAt(b, 2, 1, t).Refused? then 0 else 2
    case 3 => 1 + SlotsWork(b, 1, 1, t)
    case 4 => 1 + SlotsWork(b, 3, 1, t)
    case _ => 1
  }

  /** An entry: its id, the recipe, group and category, perhaps what unlocks it, and flags. */
  ghost function AfterEntry(b: Book, s: Stream): Stream {
    var flag := s.AfterVarInt().AfterVarInt();
    var sets := flag.Skip(1);
    if flag.Peek(1) == 0 then sets.Skip(1)
    else RunMany(b.v, IdSet, Rounds(sets.VarInt()), 0, sets.AfterVarInt()).Skip(1)
  }

  /** The entries that decode, in order, up to the first that does not. */
  ghost function EntriesAt(b: Book, n: nat, s: Stream): seq<(int32, string)>
    decreases n
  {
    if n == 0 then []
    else
      var o := RecipeAt(b, s.AfterVarInt());
      if o.Refused? || AfterEntry(b, o.after).Broken? then []
      else [(s.VarInt(), o.name)] + EntriesAt(b, n - 1, AfterEntry(b, o.after))
  }

  /** The recipe each name is learned with: the first that makes it. Entries that name
      nothing teach nothing. */
  function FirstIds(entries: seq<(int32, string)>): map<string, int32>
  {
    if entries == [] then map[]
    else
      var known, last := FirstIds(entries[..|entries| - 1]), entries[|entries| - 1];
      if last.1 == "" || last.1 in known then known else known[last.1 := last.0]
  }

  /** `FirstIds` is what its name says: the first entry to make a thing is the one kept. */
  lemma {:induction false} FirstWins(entries: seq<(int32, string)>, i: nat)
    requires i < |entries| && entries[i].1 != "" && forall j | 0 <= j < i :: entries[j].1 != entries[i].1
    ensures entries[i].1 in FirstIds(entries) && FirstIds(entries)[entries[i].1] == entries[i].0
    decreases |entries|
  {
    var init := entries[..|entries| - 1];
    if i < |init| {
      FirstWins(init, i);
    } else {
      OnlyNamed(init, entries[i].1);
    }
  }

  lemma {:induction false} OnlyNamed(entries: seq<(int32, string)>, name: string)
    ensures name in FirstIds(entries) ==> name != "" && exists i :: 0 <= i < |entries| && entries[i].1 == name
    decreases |entries|
  {
    if entries != [] {
      var init := entries[..|entries| - 1];
      OnlyNamed(init, name);
      if name in FirstIds(init) {
        var i :| 0 <= i < |init| && init[i].1 == name;
        assert entries[i].1 == name;
      }
    }
  }

  // -------------------------------------------------------------- what a server sends

  datatype Recipe =
    | Shapeless(ingredients: DisplayList, result: Display, station: Display)
    | Shaped(width: int32, height: int32, ingredients: DisplayList, result: Display, station: Display)
    | Furnace(ingredient: Display, fuel: Display, result: Display, station: Display, duration: int32, experience: bytes)
    | Stonecutting(input: Display, result: Display, station: Display)
    | Smithing(template: Display, base: Display, addition: Display, result: Display, station: Display)

  /** The displays before the result. */
  function Inputs(recipe: Recipe): DisplayList {
    match recipe
    case Shapeless(ingredients, _, _) => ingredients
    case Shaped(_, _, ingredients, _, _) => ingredients
    case Furnace(ingredient, fuel, _, _, _, _) => More(ingredient, More(fuel, Done))
    case Stonecutting(input, _, _) => More(input, Done)
    case Smithing(template, base, addition, _, _) => More(template, More(base, More(addition, Done)))
  }

  ghost predicate RecipeFits(b: Book, recipe: Recipe) {
    && Size(Inputs(recipe)) < COUNT_LIMIT && ListFits(b, Inputs(recipe), 0)
    && DisplayFits(b, recipe.result, 0) && DisplayFits(b, recipe.station, 0)
    && (recipe.Furnace? ==> |recipe.experience| == 4)
  }

  function SlotsBytes(v: Version, recipe: Recipe): bytes {
    ListBytes(v, Inputs(recipe)) + (DisplayBytes(v, recipe.result) + DisplayBytes(v, recipe.station))
  }

  function RecipeBytes(v: Version, recipe: Recipe): bytes {
    var slots := SlotsBytes(v, recipe);
    match recipe
    case Shapeless(ingredients, _, _) => VarIntBytes(0) + (CountBytes(Size(ingredients)) + slots)
    case Shaped(width, height, ingredients, _, _) =>
      VarIntBytes(1) + (VarIntBytes(width) + (VarIntBytes(height) + (CountBytes(Size(ingredients)) + slots)))
    case Furnace(_, _, _, _, duration, experience) => VarIntBytes(2) + (slots + (VarIntBytes(duration) + experience))
    case Stonecutting(_, _, _) => VarIntBytes(3) + slots
    case Smithing(_, _, _, _, _) => VarIntBytes(4) + slots
  }

  lemma SlotsRoundTrip(b: Book, recipe: Recipe, suffix: bytes)
    requires RecipeFits(b, recipe)
    ensures SlotsAt(b, Size(Inputs(recipe)), 1, At(SlotsBytes(b.v, recipe) + suffix))
         == Named(Name(b, recipe.result), At(suffix))
  {
    hide DisplayAt, AlternativesAt, DisplayBytes, ListBytes, Name, FirstName, DisplayFits, ListFits, Inputs;
    var station := DisplayBytes(b.v, recipe.station) + suffix;
    var result := DisplayBytes(b.v, recipe.result) + station;
    assert SlotsBytes(b.v, recipe) + suffix == ListBytes(b.v, Inputs(recipe)) + result;
    ListRoundTrip(b, Inputs(recipe), 0, result, "");
    DisplayRoundTrip(b, recipe.result, 0, station);
    OneMore(b, recipe.station, suffix);
  }

  lemma OneMore(b: Book, t: Display, suffix: bytes)
    requires DisplayFits(b, t, 0)
    ensures AlternativesAt(b, 1, 0, At(DisplayBytes(b.v, t) + suffix), "") == Named(Name(b, t), At(suffix))
  {
    hide DisplayAt, DisplayBytes, Name, DisplayFits;
    DisplayRoundTrip(b, t, 0, suffix);
    assert forall n: string, s :: AlternativesAt(b, 0, 0, s, n) == Named(n, s);
  }

  /** A recipe read off its encoding names its result's item, for all five kinds. */
  lemma RecipeRoundTrip(b: Book, recipe: Recipe, suffix: bytes)
    requires RecipeFits(b, recipe)
    ensures RecipeAt(b, At(RecipeBytes(b.v, recipe) + suffix)) == Named(Name(b, recipe.result), At(suffix))
  {
    hide SlotsAt, SlotsBytes, Name, DisplayFits, ListFits, VarIntBytes, CountBytes, Stream.VarInt,
      Stream.AfterVarInt, Stream.Skip;
    var slots, here := SlotsBytes(b.v, recipe), RecipeBytes(b.v, recipe) + suffix;
    match recipe
    case Shapeless(ingredients, _, _) =>
      var counted := CountBytes(Size(ingredients)) + (slots + suffix);
      assert here == VarIntBytes(0) + counted;
      VarIntAt(0, counted);
      CountRead(Size(ingredients), slots + suffix);
      SlotsRoundTrip(b, recipe, suffix);
    case Shaped(width, height, ingredients, _, _) =>
      var counted := CountBytes(Size(ingredients)) + (slots + suffix);
      assert here == VarIntBytes(1) + (VarIntBytes(width) + (VarIntBytes(height) + counted));
      VarIntAt(1, VarIntBytes(width) + (VarIntBytes(height) + counted));
      VarIntAt(width, VarIntBytes(height) + counted);
      VarIntAt(height, counted);
      CountRead(Size(ingredients), slots + suffix);
      SlotsRoundTrip(b, recipe, suffix);
    case Furnace(_, fuel, _, _, duration, experience) =>
      assert Size(More(fuel, Done)) == 1;
      var tail := VarIntBytes(duration) + (experience + suffix);
      assert here == VarIntBytes(2) + (slots + tail);
      VarIntAt(2, slots + tail);
      SlotsRoundTrip(b, recipe, tail);
      VarIntAt(duration, experience + suffix);
      SkipAt(experience, suffix);
    case Stonecutting(_, _, _) =>
      assert here == VarIntBytes(3) + (slots + suffix);
      VarIntAt(3, slots + suffix);
      SlotsRoundTrip(b, recipe, suffix);
    case Smithing(_, _, addition, _, _) =>
      assert Size(More(addition, Done)) == 1;
      assert here == VarIntBytes(4) + (slots + suffix);
      VarIntAt(4, slots + suffix);
      SlotsRoundTrip(b, recipe, suffix);
  }

  /** An entry of the packet; `unlocks` are the holder sets that unlock the recipe. */
  datatype Entry = Entry(id: int32, recipe: Recipe, group: int32, category: int32, unlocks: Option<Vals>, flags: byte)

  ghost predicate EntryFits(b: Book, e: Entry) {
    && RecipeFits(b, e.recipe)
    && (e.unlocks.Some? ==> Length(e.unlocks.value) < COUNT_LIMIT && ManyFit(b.v, IdSet, e.unlocks.value, 0))
  }

  function UnlocksBytes(v: Version, e: Entry): bytes {
    match e.unlocks
    case None => [0]
    case Some(sets) => [1] + (CountBytes(Length(sets)) + ManyBytes(v, sets))
  }

  function TailBytes(v: Version, e: Entry): bytes {
    VarIntBytes(e.group) + (VarIntBytes(e.category) + (UnlocksBytes(v, e) + [e.flags]))
  }

  function EntryBytes(v: Version, e: Entry): bytes { VarIntBytes(e.id) + (RecipeBytes(v, e.recipe) + TailBytes(v, e)) }

  function EntriesBytes(v: Version, es: seq<Entry>): bytes {
    if es == [] then [] else EntryBytes(v, es[0]) + EntriesBytes(v, es[1..])
  }

  /** What each entry makes. */
  function Makes(b: Book, es: seq<Entry>): (r: seq<(int32, string)>)
    ensures |r| == |es|
  {
    if es == [] then [] else [(es[0].id, Name(b, es[0].recipe.result))] + Makes(b, es[1..])
  }

  lemma TailAt(b: Book, e: Entry, suffix: bytes)
    requires EntryFits(b, e)
    ensures AfterEntry(b, At(TailBytes(b.v, e) + suffix)) == At(suffix)
  {
    hide RunMany, Run, RecipeFits, ManyBytes, VarIntBytes, CountBytes, Stream.VarInt, Stream.AfterVarInt,
      Stream.Skip, Stream.Peek;
    var end := [e.flags] + suffix;
    SkipAt([e.flags], suffix);
    var unlocks := UnlocksBytes(b.v, e) + end;
    assert TailBytes(b.v, e) + suffix == VarIntBytes(e.group) + (VarIntBytes(e.category) + unlocks);
    VarIntAt(e.group, VarIntBytes(e.category) + unlocks);
    VarIntAt(e.category, unlocks);
    match e.unlocks
    case None => FlagAt(0, end);
    case Some(sets) =>
      assert unlocks == [1] + (CountBytes(Length(sets)) + (ManyBytes(b.v, sets) + end));
      FlagAt(1, CountBytes(Length(sets)) + (ManyBytes(b.v, sets) + end));
      CountRead(Length(sets), ManyBytes(b.v, sets) + end);
      SetsAt(b.v, sets, end);
  }

  lemma SetsAt(v: Version, sets: Vals, suffix: bytes)
    requires ManyFit(v, IdSet, sets, 0)
    ensures RunMany(v, IdSet, Length(sets), 0, At(ManyBytes(v, sets) + suffix)) == At(suffix)
  {
    ManyRoundTrip(v, IdSet, sets, 0, suffix);
  }

  /** Every entry of a well-formed packet decodes, to what it makes. */
  lemma {:induction false} EntriesRoundTrip(b: Book, es: seq<Entry>, suffix: bytes)
    requires forall e | e in es :: EntryFits(b, e)
    ensures EntriesAt(b, |es|, At(EntriesBytes(b.v, es) + suffix)) == Makes(b, es)
    decreases |es|
  {
    hide RecipeAt, AfterEntry, EntryFits, RecipeBytes, TailBytes, VarIntBytes, Name, Stream.VarInt, Stream.AfterVarInt;
    if es != [] {
      var e, rest := es[0], EntriesBytes(b.v, es[1..]) + suffix;
      assert e in es;
      assert EntryFits(b, e) ==> RecipeFits(b, e.recipe) by { EntryFitsRecipe(b, e); }
      assert EntriesBytes(b.v, es) + suffix
          == VarIntBytes(e.id) + (RecipeBytes(b.v, e.recipe) + (TailBytes(b.v, e) + rest));
      VarIntAt(e.id, RecipeBytes(b.v, e.recipe) + (TailBytes(b.v, e) + rest));
      RecipeRoundTrip(b, e.recipe, TailBytes(b.v, e) + rest);
      TailAt(b, e, rest);
      EntriesRoundTrip(b, es[1..], suffix);
    }
  }

  lemma EntryFitsRecipe(b: Book, e: Entry)
    ensures EntryFits(b, e) ==> RecipeFits(b, e.recipe)
  {
  }

  /** A recipe_book_add packet as encoded: its count, and every entry it carries, in order. */
  lemma PacketTeaches(b: Book, es: seq<Entry>, suffix: bytes)
    requires |es| <= 16384 && forall e | e in es :: EntryFits(b, e)
    ensures var s := At(CountBytes(|es|) + (EntriesBytes(b.v, es) + suffix));
            && s.VarInt() == |es| <= 16384 && s.AfterVarInt().At?
            && EntriesAt(b, |es|, s.AfterVarInt()) == Makes(b, es)
  {
    hide EntriesAt, EntryFits, EntriesBytes, CountBytes, Stream.VarInt, Stream.AfterVarInt;
    CountRead(|es|, EntriesBytes(b.v, es) + suffix);
    EntriesRoundTrip(b, es, suffix);
  }

  // ------------------------------------------------------------------------ the readers

  method SkipDisplays(b: Book, r: Reader, n: nat) returns (err: bool, ghost work: nat)
    modifies r
    ensures var o := AlternativesAt(b, n, 0, old(r.State()), "");
            (err <==> o.Refused?) && (!err ==> r.State() == o.after)
    ensures work == AlternativesWork(b, n, 0, old(r.State())) && r.steps <= old(r.steps) + work
  {
    hide DisplayAt, DisplayWork;
    ghost var all := AlternativesAt(b, n, 0, r.State(), "");
    ghost var total, steps := AlternativesWork(b, n, 0, r.State()), r.steps;
    ghost var first := "";
    work := 0;
    for i := 0 to n
      invariant AlternativesAt(b, n - i, 0, r.State(), first) == all
      invariant work + AlternativesWork(b, n - i, 0, r.State()) == total && r.steps <= steps + work
    {
      var name;
      ghost var more;
      name, err, more := ReadSlotDisplay(b, r, 0);
      work := work + more;
      if err { return; }
      first := if first == "" then name else first;
    }
    err := false;
  }

  method ReadDisplaySlots(b: Book, r: Reader, before: nat, after: nat)
    returns (name: string, err: bool, ghost work: nat)
    modifies r
    ensures work == SlotsWork(b, before, after, old(r.State()))
    ensures Read(SlotsAt(b, before, after, old(r.State())), name, err, work, old(r.steps), r)
  {
    hide DisplayAt, AlternativesAt, DisplayWork, AlternativesWork;
    ghost var more;
    name := "";
    err, work := SkipDisplays(b, r, before);
    if err { return; }
    name, err, more := ReadSlotDisplay(b, r, 0);
    work := work + more;
    if err { return; }
    err, more := SkipDisplays(b, r, after);
    work := work + more;
  }

  method ReadRecipeDisplay(b: Book, r: Reader) returns (name: string, err: bool, ghost work: nat)
    modifies r
    ensures work == RecipeWork(b, old(r.State()))
    ensures Read(RecipeAt(b, old(r.State())), name, err, work, old(r.steps), r)
  {
    hide SlotsAt, SlotsWork, Stream.VarInt, Stream.AfterVarInt, Stream.Skip;
    var kind := r.VarInt();
    ghost var own := 1;
    match kind {
      case 0 =>
        var n := r.VarInt();
        own := 2;
        name, err, work := ReadDisplaySlots(b, r, Rounds(n), 1);
      case 1 =>
        var width := r.VarInt();
        var height := r.VarInt();
        var n := r.VarInt();
        own := 4;
        name, err, work := ReadDisplaySlots(b, r, Rounds(n), 1);
      case 2 =>
        name, err, work := ReadDisplaySlots(b, r, 2, 1);
        if !err {
          var duration := r.VarInt();
          r.Skip(4);
          err, own := r.failed, 3;
        }
      case 3 => name, err, work := ReadDisplaySlots(b, r, 1, 1);
      case 4 => name, err, work := ReadDisplaySlots(b, r, 3, 1);
      case _ => name, err, work := "", true, 0;
    }
    work := work + own;
  }

  method ReadEntryTail(b: Book, r: Reader) returns (err: bool)
    modifies r
    ensures r.State() == AfterEntry(b, old(r.State())) && err == r.State().Broken?
  {
    hide RunMany, Run, Stream.VarInt, Stream.AfterVarInt, Stream.Skip, Stream.Peek;
    var group := r.VarInt();
    var category := r.VarInt();
    var hasRequirements := r.Bool();
    if hasRequirements {
      var n := r.VarInt();
      ghost var visits := SkipIdSets(b.v, r, Rounds(n));
    }
    r.Skip(1);
    err := r.failed;
  }

  /** The holder sets of an entry. A failed reader does not stop the round: it is as many
      sets as the count says, whatever the bytes. */
  method SkipIdSets(v: Version, r: Reader, n: nat) returns (ghost visits: nat)
    modifies r
    ensures r.State() == RunMany(v, IdSet, n, 0, old(r.State()))
    ensures visits == n && r.steps <= old(r.steps) + ManyCost(v, IdSet, n, 0, old(r.State()))
  {
    hide AfterIdSet, IdCount;
    ghost var all := RunMany(v, IdSet, n, 0, r.State());
    ghost var total, steps := ManyCost(v, IdSet, n, 0, r.State()), r.steps;
    visits := 0;
    for i := 0 to n
      invariant RunMany(v, IdSet, n - i, 0, r.State()) == all && visits == i
      invariant r.steps + ManyCost(v, IdSet, n - i, 0, r.State()) <= steps + total
    {
      OneIdSet(v, n - i, r.State());
      ReadIdSet(r);
      visits := visits + 1;
    }
  }

  lemma OneIdSet(v: Version, n: nat, s: Stream)
    requires n > 0
    ensures RunMany(v, IdSet, n, 0, s) == RunMany(v, IdSet, n - 1, 0, AfterIdSet(s))
    ensures ManyCost(v, IdSet, n, 0, s) == 3 + IdCount(s) + ManyCost(v, IdSet, n - 1, 0, AfterIdSet(s))
  {
    hide AfterIdSet, IdCount;
    assert Run(v, IdSet, 0, s) == AfterIdSet(s);
  }

  lemma EntryStep(b: Book, n: nat, s: Stream)
    requires n > 0
    ensures var o := RecipeAt(b, s.AfterVarInt());
            if o.Refused? || AfterEntry(b, o.after).Broken? then EntriesAt(b, n, s) == []
            else EntriesAt(b, n, s) == [(s.VarInt(), o.name)] + EntriesAt(b, n - 1, AfterEntry(b, o.after))
  {
    hide RecipeAt, AfterEntry, Stream.VarInt, Stream.AfterVarInt;
  }

  lemma LearnStep(entries: seq<(int32, string)>, id: int32, name: string)
    ensures var known := FirstIds(entries);
            FirstIds(entries + [(id, name)]) == if name == "" || name in known then known else known[name := id]
  {
    assert (entries + [(id, name)])[..|entries|] == entries;
  }

  /** The loop over a packet's entries, stopping at the first that does not decode. */
  method ReadEntries(b: Book, r: Reader, count: nat) returns (learned: map<string, int32>, decoded: nat)
    modifies r
    ensures learned == FirstIds(EntriesAt(b, count, old(r.State())))
    ensures decoded == |EntriesAt(b, count, old(r.State()))|
  {
    hide RecipeAt, AfterEntry, EntriesAt, FirstIds, Stream.VarInt, Stream.AfterVarInt;
    ghost var all, read := EntriesAt(b, count, r.State()), [];
    learned, decoded := map[], 0;
    NothingRead(b, r.State());
    for i := 0 to count
      invariant decoded == i == |read| && learned == FirstIds(read)
      invariant all == read + EntriesAt(b, count - i, r.State())
    {
      EntryStep(b, count - i, r.State());
      assert read + [] == read;
      var id := r.VarInt();
      var name, bad, work := ReadRecipeDisplay(b, r);
      if bad { return; }
      bad := ReadEntryTail(b, r);
      if bad { return; }
      decoded := decoded + 1;
      LearnStep(read, id, name);
      if name != "" {
        if name !in learned { learned := learned[name := id]; }
      }
      assert read + ([(id, name)] + EntriesAt(b, count - i - 1, r.State()))
          == (read + [(id, name)]) + EntriesAt(b, count - i - 1, r.State());
      read := read + [(id, name)];
    }
    NothingRead(b, r.State());
    assert read + [] == read;
  }

  lemma NothingRead(b: Book, s: Stream)
    ensures EntriesAt(b, 0, s) == [] && FirstIds([]) == map[]
  {
  }

  /** What the client has learned: the recipe for each item name, and how many entries it
      was sent but could not read. */
  class Learned {
    var recipes: map<string, int32>
    var missing: int

    constructor ()
      ensures recipes == map[] && missing == 0
    {
      recipes, missing := map[], 0;
    }

    /** One recipe_book_add packet. Later packets win over earlier ones; within a packet the
        first recipe for a name wins. */
    method HandleRecipeBook(b: Book, packet: bytes) returns (err: bool)
      modifies this
      ensures var s := At(packet);
              var n := s.VarInt();
              && err == (s.AfterVarInt().Broken? || !(0 <= n <= 16384))
              && (err ==> recipes == old(recipes) && missing == old(missing))
              && (!err ==>
                    var entries := EntriesAt(b, n, s.AfterVarInt());
                    recipes == old(recipes) + FirstIds(entries) && missing == old(missing) + n - |entries|)
    {
      hide RecipeAt, AfterEntry, EntriesAt, FirstIds, Stream.VarInt, Stream.AfterVarInt;
      var r := new Reader(packet);
      var count := r.VarInt();
      if r.failed || count < 0 || count > MAX_RECIPE_ENTRIES { return true; }
      var learned, decoded := ReadEntries(b, r, count);
      missing := missing + count - decoded;
      recipes := recipes + learned;
      err := false;
    }
  }

  /** A whole packet teaches exactly the recipes it carries: the client's map afterwards is
      its old one, overridden by the first entry for each name in the packet, and no entry
      is counted missing. */
  method LearnPacket(client: Learned, b: Book, es: seq<Entry>, suffix: bytes)
    requires |es| <= 16384 && forall e | e in es :: EntryFits(b, e)
    modifies client
    ensures client.recipes == old(client.recipes) + FirstIds(Makes(b, es)) && client.missing == old(client.missing)
  {
    hide EntriesAt, EntryFits, EntriesBytes, CountBytes, FirstIds, Stream.VarInt, Stream.AfterVarInt;
    PacketTeaches(b, es, suffix);
    var packet := CountBytes(|es|) + (EntriesBytes(b.v, es) + suffix);
    var err := client.HandleRecipeBook(b, packet);
  }
}
