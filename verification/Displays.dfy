/** Slot displays, the ingredients and results of the recipe book (`understudy/recipes.go`).
They nest through each other and carry no length. What they read and name is given first as
a function of the bytes; the readers that walk them are proved to compute it. */
module Displays {
  import opened Words
  import opened Wire
  import opened Shapes
  import opened NestedItems
  import opened ShapeCost
  import Plans

  const DISPLAY_DEPTH := 32

  /** What a version knows: its component encodings, the canonical kind of each slot display
      id (the ids themselves when it has no table), and the names of its items. */
  datatype Book = Book(v: Version, kinds: map<int32, int32>, names: int32 -> string)
  {
    function Kind(wire: int32): Option<int32> {
      if kinds == map[] then Some(wire) else if wire in kinds then Some(kinds[wire]) else None
    }
  }

  /** A reading stops with an error, or names something (or nothing, "") and goes on. */
  datatype Outcome = Refused | Named(name: string, after: Stream)

  function DisplayAt(b: Book, depth: nat, s: Stream): Outcome
    requires depth <= DISPLAY_DEPTH + 1
    decreases DISPLAY_DEPTH + 1 - depth, 2
  {
    if depth > DISPLAY_DEPTH then Refused
    else
      match b.Kind(s.VarInt())
      case None => Refused
      case Some(kind) => KindAt(b, kind, depth, s.AfterVarInt())
  }

  /** The body of a display of a canonical kind. */
  function KindAt(b: Book, kind: int32, depth: nat, s: Stream): Outcome
    requires depth <= DISPLAY_DEPTH
    decreases DISPLAY_DEPTH + 1 - depth, 1
  {
    match kind
    case 0 => Named("", s)
    case 1 => Named("", s)
    case 2 => DisplayAt(b, depth + 1, s)
    case 3 =>
      var inner := DisplayAt(b, depth + 1, s);
      if inner.Refused? then Refused else Named(inner.name, inner.after.AfterVarInt())
    case 4 => Named(b.names(s.VarInt()), s.AfterVarInt())
    case 5 =>
      if Run(b.v, Stack, 0, s).Broken? then Refused else Named(b.names(NestedId(b.v, s)), Run(b.v, Stack, 0, s))
    case 6 => Named("", s.AfterString())
    case 7 =>
      var dye := DisplayAt(b, depth + 1, s);
      if dye.Refused? then Refused else DisplayAt(b, depth + 1, dye.after)
    case 8 => TrimAt(b, depth, s)
    case 9 =>
      var inner := DisplayAt(b, depth + 1, s);
      if inner.Refused? then Refused
      else
        var remainder := DisplayAt(b, depth + 1, inner.after);
        if remainder.Refused? then Refused else Named(inner.name, remainder.after)
    case 10 => AlternativesAt(b, Rounds(s.VarInt()), depth + 1, s.AfterVarInt(), "")
    case _ => Refused
  }

  /** Base, material, and a pattern that must be a registry reference; the material names it. */
  function TrimAt(b: Book, depth: nat, s: Stream): Outcome
    requires depth <= DISPLAY_DEPTH
    decreases DISPLAY_DEPTH + 1 - depth, 0
  {
    var base := DisplayAt(b, depth + 1, s);
    if base.Refused? then Refused
    else
      var material := DisplayAt(b, depth + 1, base.after);
      if material.Refused? || material.after.VarInt() == 0 then Refused
      else Named(material.name, material.after.AfterVarInt())
  }

  /** A composite's children: the first that names anything names it. */
  function AlternativesAt(b: Book, n: nat, depth: nat, s: Stream, first: string): Outcome
    requires depth <= DISPLAY_DEPTH + 1
    decreases DISPLAY_DEPTH + 1 - depth, 3, n
  {
    if n == 0 then Named(first, s)
    else
      var child := DisplayAt(b, depth, s);
      if child.Refused? then Refused
      else AlternativesAt(b, n - 1, depth, child.after, if first == "" then child.name else first)
  }

  // --------------------------------------------------------------- the work it takes

  /** Displays begun and reads made, wherever the walk stops. */
  ghost function DisplayWork(b: Book, depth: nat, s: Stream): nat
    requires depth <= DISPLAY_DEPTH + 1
    decreases DISPLAY_DEPTH + 1 - depth, 2
  {
    if depth > DISPLAY_DEPTH then 1
    else
      1 + match b.Kind(s.VarInt())
          case None => 0
          case Some(kind) => KindWork(b, kind, depth, s.AfterVarInt())
  }

  ghost function KindWork(b: Book, kind: int32, depth: nat, s: Stream): nat
    requires depth <= DISPLAY_DEPTH
    decreases DISPLAY_DEPTH + 1 - depth, 1
  {
    match kind
    case 2 => DisplayWork(b, depth + 1, s)
    case 3 => DisplayWork(b, depth + 1, s) + 1
    case 4 => 1
    case 5 => Cost(b.v, Stack, 0, s)
    case 6 => 2
    case 7 => PairWork(b, depth, s)
    case 8 => TrimWork(b, depth, s)
    case 9 => PairWork(b, depth, s)
    case 10 => 1 + AlternativesWork(b, Rounds(s.VarInt()), depth + 1, s.AfterVarInt())
    case _ => 0
  }

  /** Two children, the second only after the first. */
  ghost function PairWork(b: Book, depth: nat, s: Stream): nat
    requires depth <= DISPLAY_DEPTH
    decreases DISPLAY_DEPTH + 1 - depth, 0, 0
  {
    var first := DisplayAt(b, depth + 1, s);
    DisplayWork(b, depth + 1, s) + if first.Refused? then 0 else DisplayWork(b, depth + 1, first.after)
  }

  ghost function TrimWork(b: Book, depth: nat, s: Stream): nat
    requires depth <= DISPLAY_DEPTH
    decreases DISPLAY_DEPTH + 1 - depth, 0, 1
  {
    var base := DisplayAt(b, depth + 1, s);
    PairWork(b, depth, s) + if base.Refused? || DisplayAt(b, depth + 1, base.after).Refused? then 0 else 1
  }

  ghost function AlternativesWork(b: Book, n: nat, depth: nat, s: Stream): nat
    requires depth <= DISPLAY_DEPTH + 1
    decreases DISPLAY_DEPTH + 1 - depth, 3, n
  {
    if n == 0 then 0
    else
      var child := DisplayAt(b, depth, s);
      DisplayWork(b, depth, s) + if child.Refused? then 0 else AlternativesWork(b, n - 1, depth, child.after)
  }

  // ------------------------------------------------------------------------ the readers

  /** An outcome as a reader reports it, with the reads it made no more than its work. */
  ghost predicate Read(o: Outcome, name: string, err: bool, work: nat, steps: nat, r: Reader)
    reads r
  {
    && r.steps <= steps + work
    && match o
       case Refused => err
       case Named(n, after) => !err && name == n && r.State() == after
  }

  method ReadSlotDisplay(b: Book, r: Reader, depth: nat) returns (name: string, err: bool, ghost work: nat)
    requires depth <= DISPLAY_DEPTH + 1
    modifies r
    ensures work == DisplayWork(b, depth, old(r.State()))
    ensures Read(DisplayAt(b, depth, old(r.State())), name, err, work, old(r.steps), r)
    decreases DISPLAY_DEPTH + 1 - depth, 2
  {
    hide KindAt, KindWork, Stream.VarInt, Stream.AfterVarInt;
    work := 1;
    if depth > DISPLAY_DEPTH { return "", true, work; }
    var wire := r.VarInt();
    var kind := b.Kind(wire);
    if kind == None { return "", true, work; }
    ghost var more;
    name, err, more := ReadDisplayKind(b, r, kind.value, depth);
    work := work + more;
  }

  method ReadDisplayKind(b: Book, r: Reader, kind: int32, depth: nat) returns (name: string, err: bool, ghost work: nat)
    requires depth <= DISPLAY_DEPTH
    modifies r
    ensures work == KindWork(b, kind, depth, old(r.State()))
    ensures Read(KindAt(b, kind, depth, old(r.State())), name, err, work, old(r.steps), r)
    decreases DISPLAY_DEPTH + 1 - depth, 1
  {
    hide DisplayAt, TrimAt, AlternativesAt, Run, Cost, DisplayWork, PairWork, TrimWork, AlternativesWork, Stream.VarInt,
      Stream.AfterVarInt, Stream.AfterString;
    match kind
    case 0 => return "", false, 0;
    case 1 => return "", false, 0;
    case 2 => name, err, work := ReadSlotDisplay(b, r, depth + 1);
    case 3 =>
      name, err, work := ReadSlotDisplay(b, r, depth + 1);
      var _ := r.VarInt();
      work := work + 1;
    case 4 =>
      var id := r.VarInt();
      return b.names(id), false, 1;
    case 5 =>
      var id;
      work := Cost(b.v, Stack, 0, r.State());
      id, err := SkipNestedStackAt(b.v, r, 0);
      name := b.names(id);
    case 6 =>
      var _ := r.String();
      return "", false, 2;
    case 7 =>
      var first;
      first, name, err, work := ReadPair(b, r, depth);
    case 8 => name, err, work := ReadTrim(b, r, depth);
    case 9 =>
      var second;
      name, second, err, work := ReadPair(b, r, depth);
    case 10 => name, err, work := ReadComposite(b, r, depth);
    case _ => return "", true, 0;
  }

  /** Two displays one after the other, and the names of both. */
  method ReadPair(b: Book, r: Reader, depth: nat) returns (first: string, second: string, err: bool, ghost work: nat)
    requires depth <= DISPLAY_DEPTH
    modifies r
    ensures work == PairWork(b, depth, old(r.State())) && r.steps <= old(r.steps) + work
    ensures var one := DisplayAt(b, depth + 1, old(r.State()));
            if one.Refused? || DisplayAt(b, depth + 1, one.after).Refused? then err
            else
              var two := DisplayAt(b, depth + 1, one.after);
              !err && first == one.name && second == two.name && r.State() == two.after
    decreases DISPLAY_DEPTH + 1 - depth, 0, 0
  {
    hide DisplayAt, DisplayWork;
    second := "";
    first, err, work := ReadSlotDisplay(b, r, depth + 1);
    if err { return; }
    ghost var more;
    second, err, more := ReadSlotDisplay(b, r, depth + 1);
    work := work + more;
  }

  method ReadTrim(b: Book, r: Reader, depth: nat) returns (name: string, err: bool, ghost work: nat)
    requires depth <= DISPLAY_DEPTH
    modifies r
    ensures work == TrimWork(b, depth, old(r.State()))
    ensures Read(TrimAt(b, depth, old(r.State())), name, err, work, old(r.steps), r)
    decreases DISPLAY_DEPTH + 1 - depth, 0, 1
  {
    hide DisplayAt, PairWork, Stream.VarInt, Stream.AfterVarInt;
    var base;
    base, name, err, work := ReadPair(b, r, depth);
    if err { return; }
    var pattern := r.VarInt();
    work := work + 1;
    err := pattern == 0;
  }

  method ReadComposite(b: Book, r: Reader, depth: nat) returns (first: string, err: bool, ghost work: nat)
    requires depth <= DISPLAY_DEPTH
    modifies r
    ensures work == KindWork(b, 10, depth, old(r.State()))
    ensures Read(KindAt(b, 10, depth, old(r.State())), first, err, work, old(r.steps), r)
    decreases DISPLAY_DEPTH + 1 - depth, 0, 0
  {
    hide DisplayAt, TrimAt, DisplayWork, TrimWork, PairWork, Stream.VarInt, Stream.AfterVarInt;
    ghost var steps := r.steps;
    var n := r.VarInt();
    first, work := "", 1;
    ghost var all := AlternativesAt(b, Rounds(n), depth + 1, r.State(), "");
    ghost var total := AlternativesWork(b, Rounds(n), depth + 1, r.State());
    for i := 0 to Rounds(n)
      invariant AlternativesAt(b, Rounds(n) - i, depth + 1, r.State(), first) == all
      invariant work + AlternativesWork(b, Rounds(n) - i, depth + 1, r.State()) == 1 + total
      invariant r.steps <= steps + work
    {
      var name;
      ghost var more;
      name, err, more := ReadSlotDisplay(b, r, depth + 1);
      work := work + more;
      if err { return; }
      if first == "" { first := name; }
    }
    err := false;
  }
}
