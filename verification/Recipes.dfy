/** The recipe book (`understudy/recipes.go`): display trees and their encodings, the five
kinds of recipe, and the packet that teaches the client which recipe makes what. */
module Recipes {
  import opened Words
  import opened Wire
  import opened Shapes
  import opened ShapeCodec
  import opened NestedItems
  import opened Displays
  import opened FieldSkippers
  import Plans

  // --------------------------------------------------------------------- display trees

  /** A slot display, with the id the version gives its kind. */
  datatype Display =
    | Blank(wire: int32)
    | AnyPotion(wire: int32, of: Display)
    | WithComponent(wire: int32, of: Display, component: int32)
    | OfItem(wire: int32, id: int32)
    | OfStack(wire: int32, stack: Item)
    | OfTag(wire: int32, tag: bytes)
    | Dyed(wire: int32, dye: Display, of: Display)
    | Trimmed(wire: int32, base: Display, of: Display, pattern: int32)
    | Leaving(wire: int32, of: Display, remainder: Display)
    | AnyOf(wire: int32, options: DisplayList)

  datatype DisplayList = Done | More(head: Display, tail: DisplayList)

  function Size(ds: DisplayList): nat { match ds case Done => 0 case More(_, tail) => 1 + Size(tail) }

  /** The canonical kinds a node may be sent as. */
  predicate KindOf(t: Display, kind: int32) {
    match t
    case Blank(_) => kind == 0 || kind == 1
    case AnyPotion(_, _) => kind == 2
    case WithComponent(_, _, _) => kind == 3
    case OfItem(_, _) => kind == 4
    case OfStack(_, _) => kind == 5
    case OfTag(_, _) => kind == 6
    case Dyed(_, _, _) => kind == 7
    case Trimmed(_, _, _, _) => kind == 8
    case Leaving(_, _, _) => kind == 9
    case AnyOf(_, _) => kind == 10
  }

  ghost predicate DisplayFits(b: Book, t: Display, depth: nat)
    decreases t
  {
    && depth <= 32 && b.Kind(t.wire).Some? && KindOf(t, b.Kind(t.wire).value)
    && match t
       case Blank(_) => true
       case AnyPotion(_, of) => DisplayFits(b, of, depth + 1)
       case WithComponent(_, of, _) => DisplayFits(b, of, depth + 1)
       case OfItem(_, _) => true
       case OfStack(_, stack) => ItemFits(b.v, stack, 0)
       case OfTag(_, tag) => |tag| <= MAX_STRING_LEN
       case Dyed(_, dye, of) => DisplayFits(b, dye, depth + 1) && DisplayFits(b, of, depth + 1)
       case Trimmed(_, base, of, pattern) =>
         DisplayFits(b, base, depth + 1) && DisplayFits(b, of, depth + 1) && pattern != 0
       case Leaving(_, of, remainder) => DisplayFits(b, of, depth + 1) && DisplayFits(b, remainder, depth + 1)
       case AnyOf(_, options) => Size(options) < COUNT_LIMIT && ListFits(b, options, depth + 1)
  }

  ghost predicate ListFits(b: Book, ds: DisplayList, depth: nat)
    decreases ds
  {
    match ds case Done => true case More(head, tail) => DisplayFits(b, head, depth) && ListFits(b, tail, depth)
  }

  function DisplayBytes(v: Version, t: Display): bytes
    decreases t
  {
    VarIntBytes(t.wire) + BodyBytes(v, t)
  }

  function BodyBytes(v: Version, t: Display): bytes
    decreases t, 0
  {
    match t
    case Blank(_) => []
    case AnyPotion(_, of) => DisplayBytes(v, of)
    case WithComponent(_, of, component) => DisplayBytes(v, of) + VarIntBytes(component)
    case OfItem(_, id) => VarIntBytes(id)
    case OfStack(_, stack) => ItemBytes(v, stack)
    case OfTag(_, tag) => TextBytes(tag)
    case Dyed(_, dye, of) => DisplayBytes(v, dye) + DisplayBytes(v, of)
    case Trimmed(_, base, of, pattern) => DisplayBytes(v, base) + (DisplayBytes(v, of) + VarIntBytes(pattern))
    case Leaving(_, of, remainder) => DisplayBytes(v, of) + DisplayBytes(v, remainder)
    case AnyOf(_, options) => CountBytes(Size(options)) + ListBytes(v, options)
  }

  function ListBytes(v: Version, ds: DisplayList): bytes
    decreases ds
  {
    match ds case Done => [] case More(head, tail) => DisplayBytes(v, head) + ListBytes(v, tail)
  }

  /** The item a display names, "" when it names none. */
  function Name(b: Book, t: Display): string
    decreases t
  {
    match t
    case Blank(_) => ""
    case AnyPotion(_, of) => Name(b, of)
    case WithComponent(_, of, _) => Name(b, of)
    case OfItem(_, id) => b.names(id)
    case OfStack(_, stack) => b.names(stack.id)
    case OfTag(_, _) => ""
    case Dyed(_, _, of) => Name(b, of)
    case Trimmed(_, _, of, _) => Name(b, of)
    case Leaving(_, of, _) => Name(b, of)
    case AnyOf(_, options) => FirstName(b, options)
  }

  function FirstName(b: Book, ds: DisplayList): string
    decreases ds
  {
    match ds case Done => "" case More(head, tail) => if Name(b, head) != "" then Name(b, head) else FirstName(b, tail)
  }

  /** Reading a display off its encoding names what the tree names and leaves exactly what
      follows. */
  lemma {:induction false} DisplayRoundTrip(b: Book, t: Display, depth: nat, suffix: bytes)
    requires DisplayFits(b, t, depth)
    ensures DisplayAt(b, depth, At(DisplayBytes(b.v, t) + suffix)) == Named(Name(b, t), At(suffix))
    decreases t, 1
  {
    hide KindAt, Name, BodyBytes, VarIntBytes, Stream.VarInt, Stream.AfterVarInt;
    assert DisplayBytes(b.v, t) + suffix == VarIntBytes(t.wire) + (BodyBytes(b.v, t) + suffix);
    VarIntAt(t.wire, BodyBytes(b.v, t) + suffix);
    BodyRoundTrip(b, t, depth, suffix);
  }

  lemma {:induction false} BodyRoundTrip(b: Book, t: Display, depth: nat, suffix: bytes)
    requires DisplayFits(b, t, depth)
    ensures KindAt(b, b.Kind(t.wire).value, depth, At(BodyBytes(b.v, t) + suffix)) == Named(Name(b, t), At(suffix))
    decreases t, 0
  {
    hide DisplayAt, AlternativesAt, DisplayBytes, ListBytes, ItemBytes, TextBytes, CountBytes, VarIntBytes,
      FirstName, ItemFits, Run, Stream.VarInt, Stream.AfterVarInt, Stream.AfterString;
    var here := BodyBytes(b.v, t) + suffix;
    match t
    case Blank(_) => assert here == suffix;
    case AnyPotion(_, of) => DisplayRoundTrip(b, of, depth + 1, suffix);
    case WithComponent(_, of, component) =>
      assert here == DisplayBytes(b.v, of) + (VarIntBytes(component) + suffix);
      DisplayRoundTrip(b, of, depth + 1, VarIntBytes(component) + suffix);
      VarIntAt(component, suffix);
    case OfItem(_, id) => VarIntAt(id, suffix);
    case OfStack(_, stack) => StackNamed(b.v, stack, suffix);
    case OfTag(_, tag) => TextAt(tag, suffix);
    case Dyed(_, dye, of) =>
      assert here == DisplayBytes(b.v, dye) + (DisplayBytes(b.v, of) + suffix);
      DisplayRoundTrip(b, dye, depth + 1, DisplayBytes(b.v, of) + suffix);
      DisplayRoundTrip(b, of, depth + 1, suffix);
    case Trimmed(_, base, of, pattern) =>
      var tail := VarIntBytes(pattern) + suffix;
      assert here == DisplayBytes(b.v, base) + (DisplayBytes(b.v, of) + tail);
      DisplayRoundTrip(b, base, depth + 1, DisplayBytes(b.v, of) + tail);
      DisplayRoundTrip(b, of, depth + 1, tail);
      VarIntAt(pattern, suffix);
    case Leaving(_, of, remainder) =>
      assert here == DisplayBytes(b.v, of) + (DisplayBytes(b.v, remainder) + suffix);
      DisplayRoundTrip(b, of, depth + 1, DisplayBytes(b.v, remainder) + suffix);
      DisplayRoundTrip(b, remainder, depth + 1, suffix);
    case AnyOf(_, options) =>
      assert here == CountBytes(Size(options)) + (ListBytes(b.v, options) + suffix);
      CountRead(Size(options), ListBytes(b.v, options) + suffix);
      ListRoundTrip(b, options, depth + 1, suffix, "");
  }

  lemma CountRead(n: nat, suffix: bytes)
    requires n < COUNT_LIMIT
    ensures At(CountBytes(n) + suffix).VarInt() == n && At(CountBytes(n) + suffix).AfterVarInt() == At(suffix)
  {
    CountIsVarInt(n);
    VarIntAt(n, suffix);
  }

  lemma StackNamed(v: Version, stack: Item, suffix: bytes)
    requires ItemFits(v, stack, 0)
    ensures var s := At(ItemBytes(v, stack) + suffix); Run(v, Stack, 0, s) == At(suffix) && NestedId(v, s) == stack.id
  {
    hide VarIntBytes, ItemTail, ItemFits, RunStack, Stream.VarInt, Stream.AfterVarInt;
    StackRoundTrip(v, stack, 0, suffix);
    var first := if v.enc.nestedStacksCountFirst then stack.count else stack.id;
    var second := if v.enc.nestedStacksCountFirst then stack.id else stack.count;
    var tail := ItemTail(v, stack) + suffix;
    assert ItemBytes(v, stack) + suffix == VarIntBytes(first) + (VarIntBytes(second) + tail);
    VarIntAt(first, VarIntBytes(second) + tail);
    VarIntAt(second, tail);
  }

  lemma {:induction false} ListRoundTrip(b: Book, ds: DisplayList, depth: nat, suffix: bytes, first: string)
    requires depth <= DISPLAY_DEPTH + 1 && ListFits(b, ds, depth)
    ensures AlternativesAt(b, Size(ds), depth, At(ListBytes(b.v, ds) + suffix), first)
         == Named(if first != "" then first else FirstName(b, ds), At(suffix))
    decreases ds, 1
  {
    hide DisplayAt, DisplayBytes, Name;
    match ds
    case Done => assert ListBytes(b.v, ds) + suffix == suffix;
    case More(head, tail) =>
      assert ListBytes(b.v, ds) + suffix == DisplayBytes(b.v, head) + (ListBytes(b.v, tail) + suffix);
      DisplayRoundTrip(b, head, depth, ListBytes(b.v, tail) + suffix);
      ListRoundTrip(b, tail, depth, suffix, if first == "" then Name(b, head) else first);
  }
}
