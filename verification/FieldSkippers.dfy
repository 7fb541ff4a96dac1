/** The component skippers as the client writes them (`understudy/components.go`,
`understudy/recipes.go`): a method a payload, advancing a shared reader. Each is proved to
leave the reader where its shape says, on any bytes, within the reads its shape costs. */
module FieldSkippers {
  import opened Words
  import opened Wire
  import opened Shapes
  import opened ShapeCost
  import opened Plans
  import Nbt

  // ------------------------------------------------------------ parts of other payloads

  method SkipNbt(r: Reader, ghost p: Plan) returns (err: bool, ghost q: Plan)
    requires On(p, r) && p.todo.Do? && p.Now() == Tag
    modifies r
    ensures q == p.Next() && Ended(q, err, r) && (r.failed ==> err)
  {
    hide Run, Cost, Rest, Price, Nbt.TagWork, Nbt.TagSpan;
    ghost var s, steps := r.State(), r.steps;
    var n, work := Nbt.SkipTag(r.State().Remaining());
    r.steps := r.steps + work;
    if n == None {
      err := true;
    } else {
      r.Skip(n.value);
      err := r.failed;
    }
    q := p.Next();
    LeafRules(p.v, p.d, s);
    Through(p, s, steps, err, r);
  }

  method SkipVarInts(r: Reader, n: nat)
    modifies r
    ensures r.State() == AfterVarInts(old(r.State()), n) && r.steps == old(r.steps) + n
  {
    hide Stream.AfterVarInt;
    ghost var s, steps := r.State(), r.steps;
    for i := 0 to n
      invariant AfterVarInts(r.State(), n - i) == AfterVarInts(s, n) && r.steps == steps + i
    {
      var _ := r.VarInt();
    }
  }

  /** A holder set: a tag name after a zero, or one less than the count of ids. */
  method ReadIdSet(r: Reader)
    modifies r
    ensures r.State() == AfterIdSet(old(r.State())) && r.steps <= old(r.steps) + (3 + IdCount(old(r.State())))
  {
    hide Stream.AfterVarInt, Stream.AfterString, Stream.VarInt, AfterVarInts;
    var n := r.VarInt();
    if n == 0 {
      var _ := r.String();
      return;
    }
    if n < 0 || n - 1 > |r.State().Remaining()| {
      r.Fail();
      return;
    }
    SkipVarInts(r, n - 1);
  }

  method SkipIdSet(r: Reader, ghost p: Plan) returns (ghost q: Plan)
    requires On(p, r) && p.todo.Do? && p.Now() == IdSet
    modifies r
    ensures q == p.Next() && On(q, r)
  {
    hide Run, Cost, Rest, Price, AfterIdSet, IdCount;
    ghost var s, steps := r.State(), r.steps;
    ReadIdSet(r);
    q := p.Next();
    LeafRules(p.v, p.d, s);
    Advance(p, s, steps, r.State(), r.steps);
  }

  method SkipHolder(r: Reader, ghost p: Plan) returns (err: bool, ghost q: Plan)
    requires On(p, r) && p.todo.Do? && p.Now() == HOLDER
    modifies r
    ensures q == p.Next() && Ended(q, err, r) && (r.failed ==> err)
  {
    hide On, OnAt;
    var n;
    n, q := Choice(r, p);
    if n == 0 {
      Refused(q, r);
      return true, p.Next();
    }
    Vanish(q, r);
    q := q.Next();
    Stop(q, r);
    err := r.failed;
  }

  /** A leading flag that must not be zero. */
  method SkipFlag(r: Reader, ghost p: Plan) returns (err: bool, ghost q: Plan)
    requires On(p, r) && p.todo.Do? && p.Now() == HOLDER
    modifies r
    ensures q == p.Next() && Ended(q, err, r)
  {
    hide On, OnAt;
    var n;
    n, q := Choice(r, p);
    if n == 0 {
      Refused(q, r);
      return true, p.Next();
    }
    Vanish(q, r);
    err, q := false, q.Next();
  }

  /** A count of things that cannot be walked into, so it must be zero. */
  method RequireNone(r: Reader, ghost p: Plan) returns (err: bool, ghost q: Plan)
    requires On(p, r) && p.todo.Do? && p.Now() == NONE_OF
    modifies r
    ensures q == p.Next() && Ended(q, err, r)
  {
    hide On, OnAt;
    var n;
    n, q := Choice(r, p);
    if n != 0 {
      Refused(q, r);
      return true, p.Next();
    }
    Vanish(q, r);
    err, q := false, q.Next();
  }

  method OptionalText(r: Reader, ghost p: Plan) returns (ghost q: Plan)
    requires On(p, r) && p.todo.Do? && p.Now() == Optional(Text)
    modifies r
    ensures q == p.Next() && On(q, r)
  {
    hide On, OnAt;
    var b;
    b, q := Given(r, p);
    if b { q := Str(r, q); }
  }

  method OptionalBytes(r: Reader, n: nat, ghost p: Plan) returns (ghost q: Plan)
    requires On(p, r) && p.todo.Do? && p.Now() == Optional(Fixed(n))
    modifies r
    ensures q == p.Next() && On(q, r)
  {
    hide On, OnAt;
    var b;
    b, q := Given(r, p);
    if b { q := Bytes(r, n, q); }
  }

  method OptionalHolder(r: Reader, ghost p: Plan) returns (err: bool, ghost q: Plan)
    requires On(p, r) && p.todo.Do? && p.Now() == Optional(HOLDER)
    modifies r
    ensures q == p.Next() && Ended(q, err, r)
  {
    hide On, OnAt;
    var b;
    b, q := Given(r, p);
    err := false;
    if b { err, q := SkipHolder(r, q); }
  }
}
