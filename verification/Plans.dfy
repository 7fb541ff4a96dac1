/** Following a shape one read at a time. A plan carries what a skipper still has to do and
what doing it must come to: the stream the whole shape leaves behind, within the reads it
may cost. Each read of the reader discharges the front of the plan. */
module Plans {
  import opened Words
  import opened Wire
  import opened Shapes
  import opened ShapeCost
  import Nbt

  /** Work to go: shapes in order, and lists with k elements left. */
  datatype Todo = Nothing | Do(sh: Shape, more: Todo) | Loop(k: nat, e: Shape, more: Todo)

  ghost function Rest(v: Version, d: nat, t: Todo, s: Stream): Stream
    requires d <= COMPONENT_DEPTH
    decreases t
  {
    match t
    case Nothing => s
    case Do(sh, t') => Rest(v, d, t', Run(v, sh, d, s))
    case Loop(k, e, t') => Rest(v, d, t', RunMany(v, e, k, d, s))
  }

  ghost function Price(v: Version, d: nat, t: Todo, s: Stream): nat
    requires d <= COMPONENT_DEPTH
    decreases t
  {
    match t
    case Nothing => 0
    case Do(sh, t') => Cost(v, sh, d, s) + Price(v, d, t', Run(v, sh, d, s))
    case Loop(k, e, t') => ManyCost(v, e, k, d, s) + Price(v, d, t', RunMany(v, e, k, d, s))
  }

  lemma {:induction false} RestBroken(v: Version, d: nat, t: Todo)
    requires d <= COMPONENT_DEPTH
    ensures Rest(v, d, t, Broken) == Broken
    decreases t
  {
    match t
    case Nothing =>
    case Do(sh, t') => RunBroken(v, sh, d); RestBroken(v, d, t');
    case Loop(k, e, t') => ManyBroken(v, e, k, d); RestBroken(v, d, t');
  }

  datatype Plan = Plan(v: Version, d: nat, goal: Stream, budget: nat, todo: Todo)
  {
    /** The shape at the front, looking through one sequence. */
    function Now(): Shape {
      if !todo.Do? then Empty else if todo.sh.Seq? then todo.sh.first else todo.sh
    }

    function After(): Todo {
      if !todo.Do? then todo else if todo.sh.Seq? then Do(todo.sh.rest, todo.more) else todo.more
    }

    function Next(): Plan { this.(todo := After()) }

    function Then(sh: Shape): Plan { this.(todo := Do(sh, After())) }

    function Each(n: nat, e: Shape): Plan { this.(todo := Loop(n, e, After())) }

    /** With a nested front sequence opened one level, so that its parts come one by one. */
    function Opened(): Plan {
      if todo.Do? && todo.sh.Seq? then this.(todo := Do(todo.sh.first, Do(todo.sh.rest, todo.more))) else this
    }

    /** Out of the front of a list, when it has elements left, or past it. */
    function Element(): Plan
      requires todo.Loop? && todo.k > 0
    {
      this.(todo := Do(todo.e, Loop(todo.k - 1, todo.e, todo.more)))
    }

    function Past(): Plan
      requires todo.Loop?
    {
      this.(todo := todo.more)
    }
  }

  /** Doing the rest of the plan from here meets its goal and its budget. */
  ghost predicate OnAt(p: Plan, s: Stream, steps: nat) {
    p.d <= COMPONENT_DEPTH && Rest(p.v, p.d, p.todo, s) == p.goal && steps + Price(p.v, p.d, p.todo, s) <= p.budget
  }

  ghost predicate On(p: Plan, r: Reader)
    reads r
  {
    OnAt(p, r.State(), r.steps)
  }

  /** A skipper is done with the front of a plan: it reported an error, which the plan agrees
      is where the read ends, or it is on the rest of the plan. */
  ghost predicate Ended(p: Plan, err: bool, r: Reader)
    reads r
  {
    if err then p.goal == Broken && r.steps <= p.budget else On(p, r)
  }

  /** The reader's effect after a skipper, where an error returned ends the read just as a
      failed reader does. */
  function Settled(err: bool, s: Stream): Stream { if err then Broken else s }

  /** A skipper begun at `s` after `steps` reads did exactly what a shape says, and reports a
      failed reader, unless it read nothing off one. */
  ghost predicate Did(v: Version, sh: Shape, d: nat, s: Stream, steps: nat, err: bool, r: Reader)
    requires d <= COMPONENT_DEPTH
    reads r
  {
    && Settled(err, r.State()) == Run(v, sh, d, s) && r.steps <= steps + Cost(v, sh, d, s)
    && (r.State().Broken? ==> err || (sh == Empty && s.Broken?))
  }

  // ------------------------------------------------------------------- beginning and end

  ghost function Whole(v: Version, sh: Shape, d: nat, s: Stream, steps: nat): Plan
    requires d <= COMPONENT_DEPTH
  {
    Plan(v, d, Run(v, sh, d, s), steps + Cost(v, sh, d, s), Do(sh, Nothing))
  }

  lemma Begin(v: Version, sh: Shape, d: nat, r: Reader) returns (p: Plan)
    requires d <= COMPONENT_DEPTH
    ensures p == Whole(v, sh, d, r.State(), r.steps) && On(p, r)
    ensures p.Now() == (if sh.Seq? then sh.first else sh)
    ensures p.After() == (if sh.Seq? then Do(sh.rest, Nothing) else Nothing)
  {
    p := Whole(v, sh, d, r.State(), r.steps);
    assert Price(v, d, Nothing, Run(v, sh, d, r.State())) == 0;
    assert Rest(v, d, Nothing, Run(v, sh, d, r.State())) == Run(v, sh, d, r.State());
  }

  /** A failed reader has met the goal of any plan it is on, and so has a finished one. */
  lemma Stop(p: Plan, r: Reader)
    requires On(p, r)
    ensures Ended(p, r.failed, r)
    ensures p.todo == Nothing ==> r.State() == p.goal && r.steps <= p.budget
  {
    if r.failed { RestBroken(p.v, p.d, p.todo); }
  }

  // ------------------------------------------------------------- rules that read nothing

  lemma FrontSplit(p: Plan, s: Stream, steps: nat)
    requires OnAt(p, s, steps) && p.todo.Do?
    ensures var s' := Run(p.v, p.Now(), p.d, s);
            && Rest(p.v, p.d, p.After(), s') == p.goal
            && steps + (Cost(p.v, p.Now(), p.d, s) + Price(p.v, p.d, p.After(), s')) <= p.budget
  {
    hide Run, Cost;
    var sh := p.todo.sh;
    if sh.Seq? {
      SeqSplit(p.v, sh.first, sh.rest, p.d, s);
    }
  }

  lemma SeqSplit(v: Version, a: Shape, b: Shape, d: nat, s: Stream)
    requires d <= COMPONENT_DEPTH
    ensures Run(v, Seq(a, b), d, s) == Run(v, b, d, Run(v, a, d, s))
    ensures Cost(v, Seq(a, b), d, s) == Cost(v, a, d, s) + Cost(v, b, d, Run(v, a, d, s))
  {
  }

  /** The effect of a front shape, from the effect of the shape itself. */
  lemma Advance(p: Plan, s: Stream, steps: nat, s': Stream, steps': nat)
    requires OnAt(p, s, steps) && p.todo.Do?
    requires s' == Run(p.v, p.Now(), p.d, s) && steps' <= steps + Cost(p.v, p.Now(), p.d, s)
    ensures OnAt(p.Next(), s', steps')
  {
    hide Run, Cost, Rest, Price;
    FrontSplit(p, s, steps);
  }

  lemma Open(p: Plan, r: Reader)
    requires On(p, r)
    ensures On(p.Opened(), r)
  {
    hide Run, Cost;
    if p.todo.Do? && p.todo.sh.Seq? {
      var sh := p.todo.sh;
      var next := Do(sh.rest, p.todo.more);
      SeqSplit(p.v, sh.first, sh.rest, p.d, r.State());
      assert Rest(p.v, p.d, p.Opened().todo, r.State()) == Rest(p.v, p.d, next, Run(p.v, sh.first, p.d, r.State()));
      assert Price(p.v, p.d, p.Opened().todo, r.State())
          == Cost(p.v, sh.first, p.d, r.State()) + Price(p.v, p.d, next, Run(p.v, sh.first, p.d, r.State()));
    }
  }

  lemma Refused(p: Plan, r: Reader)
    requires On(p, r) && p.Now() == Reject && p.todo.Do?
    ensures Ended(p, true, r)
  {
    hide Run, Cost, Rest, Price;
    FrontSplit(p, r.State(), r.steps);
    RejectRuns(p.v, p.d, r.State());
    RestBroken(p.v, p.d, p.After());
  }

  lemma RejectRuns(v: Version, d: nat, s: Stream)
    requires d <= COMPONENT_DEPTH
    ensures Run(v, Reject, d, s) == Broken
    ensures Run(v, Empty, d, s) == s && Cost(v, Empty, d, s) == 0
  {
  }

  lemma Vanish(p: Plan, r: Reader)
    requires On(p, r) && p.Now() == Empty && p.todo.Do?
    ensures On(p.Next(), r)
  {
    hide Run, Cost, Rest, Price;
    RejectRuns(p.v, p.d, r.State());
    Advance(p, r.State(), r.steps, r.State(), r.steps);
  }

  lemma Unroll(p: Plan, r: Reader)
    requires On(p, r) && p.todo.Loop?
    ensures if p.todo.k == 0 then On(p.Past(), r) else On(p.Element(), r)
  {
    hide Run, Cost, RunMany, ManyCost;
    var t, s := p.todo, r.State();
    ManyStep(p.v, t.e, t.k, p.d, s);
    if t.k > 0 {
      var s1, next := Run(p.v, t.e, p.d, s), Loop(t.k - 1, t.e, t.more);
      assert Rest(p.v, p.d, p.Element().todo, s) == Rest(p.v, p.d, next, s1);
      assert Price(p.v, p.d, p.Element().todo, s) == Cost(p.v, t.e, p.d, s) + Price(p.v, p.d, next, s1);
    }
  }

  lemma ManyStep(v: Version, e: Shape, k: nat, d: nat, s: Stream)
    requires d <= COMPONENT_DEPTH
    ensures k == 0 ==> RunMany(v, e, k, d, s) == s && ManyCost(v, e, k, d, s) == 0
    ensures k > 0 ==> RunMany(v, e, k, d, s) == RunMany(v, e, k - 1, d, Run(v, e, d, s))
    ensures k > 0 ==> ManyCost(v, e, k, d, s) == Cost(v, e, d, s) + ManyCost(v, e, k - 1, d, Run(v, e, d, s))
  {
  }

  /** A shape skipped by a method of its own. */
  lemma Through(p: Plan, s: Stream, steps: nat, err: bool, r: Reader)
    requires OnAt(p, s, steps) && p.todo.Do? && Did(p.v, p.Now(), p.d, s, steps, err, r)
    ensures Ended(p.Next(), err, r)
  {
    hide Run, Cost, Rest, Price;
    FrontSplit(p, s, steps);
    if err { RestBroken(p.v, p.d, p.After()); }
  }

  /** As `Through`, for a method that skips the front shape whole, even a sequence. */
  lemma ThroughAll(p: Plan, s: Stream, steps: nat, err: bool, r: Reader)
    requires OnAt(p, s, steps) && p.todo.Do? && Did(p.v, p.todo.sh, p.d, s, steps, err, r)
    ensures Ended(p.(todo := p.todo.more), err, r)
  {
    hide Run, Cost;
    if err { RestBroken(p.v, p.d, p.todo.more); }
  }

  // ---------------------------------------------------------------- rules for the reads

  lemma LeafRules(v: Version, d: nat, s: Stream)
    requires d <= COMPONENT_DEPTH
    ensures Run(v, VarInt, d, s) == s.AfterVarInt() && Cost(v, VarInt, d, s) == 1
    ensures Run(v, Text, d, s) == s.AfterString() && Cost(v, Text, d, s) == 2
    ensures Run(v, Tag, d, s) == AfterTag(s) && Cost(v, Tag, d, s) == 1 + Nbt.TagWork(s.Remaining())
    ensures Run(v, IdSet, d, s) == AfterIdSet(s) && Cost(v, IdSet, d, s) == 3 + IdCount(s)
    ensures forall n: nat :: Run(v, Fixed(n), d, s) == s.Skip(n) && Cost(v, Fixed(n), d, s) == 1
  {
    hide AfterTag, AfterIdSet, IdCount, Nbt.TagWork, RunStack, StackCost, Stream.AfterVarInt, Stream.AfterString,
      Stream.Skip;
  }

  method Num(r: Reader, ghost p: Plan) returns (n: int32, ghost q: Plan)
    requires On(p, r) && p.todo.Do? && p.Now() == VarInt
    modifies r
    ensures q == p.Next() && On(q, r) && n == old(r.State()).VarInt()
  {
    hide Run, Cost, Rest, Price, Stream.VarInt, Stream.AfterVarInt;
    ghost var s, steps := r.State(), r.steps;
    n := r.VarInt();
    q := p.Next();
    LeafRules(p.v, p.d, s);
    Advance(p, s, steps, r.State(), r.steps);
  }

  method Bytes(r: Reader, n: nat, ghost p: Plan) returns (ghost q: Plan)
    requires On(p, r) && p.todo.Do? && p.Now() == Fixed(n)
    modifies r
    ensures q == p.Next() && On(q, r)
  {
    hide Run, Cost, Rest, Price, Stream.Skip;
    ghost var s, steps := r.State(), r.steps;
    r.Skip(n);
    q := p.Next();
    LeafRules(p.v, p.d, s);
    Advance(p, s, steps, r.State(), r.steps);
  }

  method Str(r: Reader, ghost p: Plan) returns (ghost q: Plan)
    requires On(p, r) && p.todo.Do? && p.Now() == Text
    modifies r
    ensures q == p.Next() && On(q, r)
  {
    hide Run, Cost, Rest, Price, Stream.AfterString;
    ghost var s, steps := r.State(), r.steps;
    var _ := r.String();
    q := p.Next();
    LeafRules(p.v, p.d, s);
    Advance(p, s, steps, r.State(), r.steps);
  }

  /** A bool that says whether something follows. */
  method Given(r: Reader, ghost p: Plan) returns (b: bool, ghost q: Plan)
    requires On(p, r) && p.todo.Do? && p.Now().Optional?
    modifies r
    ensures q == (if b then p.Then(p.Now().body) else p.Next()) && On(q, r)
    ensures b == (old(r.State()).Peek(1) != 0) && r.State() == old(r.State()).Skip(1)
  {
    hide Run, Cost, Stream.Skip, Stream.Peek;
    ghost var s, steps := r.State(), r.steps;
    b := r.Bool();
    q := if b then p.Then(p.Now().body) else p.Next();
    FrontSplit(p, s, steps);
    OptionalRule(p.v, p.Now().body, p.d, s);
  }

  lemma OptionalRule(v: Version, b: Shape, d: nat, s: Stream)
    requires d <= COMPONENT_DEPTH
    ensures Run(v, Optional(b), d, s) == if s.Peek(1) != 0 then Run(v, b, d, s.Skip(1)) else s.Skip(1)
    ensures Cost(v, Optional(b), d, s) == 1 + if s.Peek(1) != 0 then Cost(v, b, d, s.Skip(1)) else 0
  {
  }

  /** A VarInt that chooses what follows. */
  method Choice(r: Reader, ghost p: Plan) returns (n: int32, ghost q: Plan)
    requires On(p, r) && p.todo.Do? && p.Now().Case?
    modifies r
    ensures q == p.Then(if n == p.Now().key then p.Now().equal else p.Now().other) && On(q, r)
    ensures n == old(r.State()).VarInt()
  {
    hide Run, Cost, Stream.VarInt, Stream.AfterVarInt;
    ghost var s, steps := r.State(), r.steps;
    n := r.VarInt();
    q := p.Then(if n == p.Now().key then p.Now().equal else p.Now().other);
    FrontSplit(p, s, steps);
    CaseRule(p.v, p.Now(), p.d, s);
  }

  lemma CaseRule(v: Version, c: Shape, d: nat, s: Stream)
    requires d <= COMPONENT_DEPTH && c.Case?
    ensures Run(v, c, d, s) == Run(v, if s.VarInt() == c.key then c.equal else c.other, d, s.AfterVarInt())
    ensures Cost(v, c, d, s) == 1 + Cost(v, if s.VarInt() == c.key then c.equal else c.other, d, s.AfterVarInt())
  {
  }

  method ListLen(r: Reader) returns (n: nat)
    modifies r
    ensures n == ListCount(old(r.State())) && r.State() == AfterCount(old(r.State()))
    ensures r.steps == old(r.steps) + 1
  {
    var m := r.VarInt();
    if m < 0 || m > |r.State().Remaining()| {
      r.Fail();
      return 0;
    }
    n := m;
  }

  /** A list length; what follows is that many elements. */
  method Count(r: Reader, ghost p: Plan) returns (n: nat, ghost q: Plan)
    requires On(p, r) && p.todo.Do? && p.Now().ListOf?
    modifies r
    ensures q == p.Each(n, p.Now().elem) && On(q, r)
  {
    hide Run, Cost, ListCount, AfterCount;
    ghost var s, steps := r.State(), r.steps;
    n := ListLen(r);
    q := p.Each(n, p.Now().elem);
    FrontSplit(p, s, steps);
    ListRule(p.v, p.Now().elem, p.d, s);
  }

  lemma ListRule(v: Version, e: Shape, d: nat, s: Stream)
    requires d <= COMPONENT_DEPTH
    ensures Run(v, ListOf(e), d, s) == RunMany(v, e, ListCount(s), d, AfterCount(s))
    ensures Cost(v, ListOf(e), d, s) == 1 + ManyCost(v, e, ListCount(s), d, AfterCount(s))
  {
  }
}
