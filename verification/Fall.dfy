/** Falling (`understudy/fall.go`, and the ground search in `understudy/world.go`). The fall is
simulated tick by tick and the server may answer any tick with a correction, a death, or by
moving the bot; what happens outside is a stream of ticks. Heights are reals. */
module Falling {
  import opened Words
  import opened Wire
  import opened Sections
  import opened Terrain

  const GRAVITY := 0.08
  const DRAG := 0.98
  const MAX_RESUMES := 8
  const MAX_FALL := 512.0
  const MAX_SEARCH := 512
  /** The first tick's drop: no later one is shorter. */
  const FIRST_DROP := 0.0784
  const TERMINAL := -3.92

  datatype Spot = Spot(x: real, y: real, z: real)

  // ------------------------------------------------------------------- what is below

  datatype Matter = Open | Water | Lava | Solid

  datatype Support = Support(known: bool, found: bool, groundY: int, water: bool, lava: bool)

  ghost function MatterAt(columns: Columns, matter: int32 -> Matter, x: int32, y: int32, z: int32): Matter {
    matter(ReadAt(columns, Pos(x, y, z)))
  }

  /** The highest block at or below y that is not open, no more than 512 down. */
  ghost predicate FirstStop(columns: Columns, matter: int32 -> Matter, x: int32, y: int32, z: int32, stop: int) {
    && InI32(stop) && y - 512 < stop <= y && MatterAt(columns, matter, x, stop, z) != Open
    && forall p: int32 | stop < p <= y :: MatterAt(columns, matter, x, p, z) == Open
  }

  predicate InI32(v: int) { -0x8000_0000 <= v < 0x8000_0000 }

  /** What the search may answer: unknown without the column; the first stop, feet on top of
      it or inside it when it is water; nothing when 512 blocks are open. */
  ghost predicate Supports(
    s: Support, loaded: bool, columns: Columns, matter: int32 -> Matter, x: int32, y: int32, z: int32)
  {
    && s.known == loaded
    && (s.found ==>
          && loaded
          && exists stop ::
               FirstStop(columns, matter, x, y, z, stop) && StoppedBy(s, MatterAt(columns, matter, x, stop, z), stop))
    && (loaded && !s.found && InI32(y - 512) ==>
          forall p: int32 | y - 512 < p <= y :: MatterAt(columns, matter, x, p, z) == Open)
  }

  predicate StoppedBy(s: Support, m: Matter, stop: int) {
    && s.water == (m == Water) && s.lava == (m == Lava)
    && s.groundY == if m == Water then stop else stop + 1
  }

  method FindGround(w: World, matter: int32 -> Matter, x: int32, y: int32, z: int32) returns (s: Support)
    requires w.Valid()
    ensures Supports(s, KeyOf(x, z) in w.columns, w.columns, matter, x, y, z)
  {
    hide World.Valid, KeyOf;
    var loaded := w.HasChunk(x, z);
    if !loaded { return Support(false, false, 0, false, false); }
    var probe: int := y;
    var floor := ToI32(y - MAX_SEARCH);
    while probe > floor
      invariant InI32(floor) && (probe == y || floor <= probe <= y)
      invariant InI32(y - MAX_SEARCH) ==> floor == y - MAX_SEARCH <= probe
      invariant !InI32(y - MAX_SEARCH) ==> floor > y && probe == y
      invariant forall p: int32 | probe < p <= y :: MatterAt(w.columns, matter, x, p, z) == Open
    {
      var state := w.BlockState(x, probe, z);
      var m := matter(state);
      if m != Open {
        assert FirstStop(w.columns, matter, x, y, z, probe);
        return Support(true, true, if m == Water then probe else probe + 1, m == Water, m == Lava);
      }
      probe := probe - 1;
    }
    s := Support(true, false, 0, false, false);
  }

  /** A floor found under a bot is less than 512 blocks below its feet; inside water, 513. */
  lemma FloorIsNear(s: Support, columns: Columns, matter: int32 -> Matter, at: Spot, x: int32, z: int32)
    requires InI32(at.y.Floor - 1) && Supports(s, true, columns, matter, x, at.y.Floor - 1, z) && s.found
    ensures at.y - s.groundY as real < if s.water then MAX_FALL + 1.0 else MAX_FALL
    ensures s.groundY as real <= at.y
  {
    var stop :|
      && FirstStop(columns, matter, x, at.y.Floor - 1, z, stop)
      && StoppedBy(s, MatterAt(columns, matter, x, stop, z), stop);
  }

  // ------------------------------------------------------------------- one tick at a time

  /** What a tick of the outside world may bring: whether the packet went out and the wait
      was not cut short, a death, a correction counted by the client, a new position for the
      bot, what the terrain says when asked, and whether a landing packet went out. */
  datatype Tick = Tick(sent: bool, waited: bool, died: bool, corrected: bool, moved: Option<Spot>,
                       support: Support, settled: bool)
  {
    function Seen(at: Spot): Spot { if moved.Some? then moved.value else at }

    /** The terrain says a correction was not a landing. */
    predicate StillFalling(at: Spot) {
      support.known && support.found && at.y - support.groundY as real > 1.0
    }
  }

  datatype Packet = Packet(at: Spot, onGround: bool)

  /** How a descent ended. */
  datatype Exit = AtTarget | NotSent | Interrupted | Died | Settled | FellTooFar

  datatype Descent = Descent(packets: seq<Packet>, exit: Exit, fell: real)

  /** A drop from `start` to a target height, or until something stops it. */
  datatype Drop = Drop(start: Spot, target: Option<real>, landOnGround: bool)

  function Faster(v: real): (v': real)
    requires TERMINAL < v <= 0.0
    ensures TERMINAL < v' <= -FIRST_DROP
  {
    (v - GRAVITY) * DRAG
  }

  function Lower(a: real, b: real): real { if a < b then a else b }

  /** Room left to fall, in drops of a thirteenth of a block. */
  function Room(d: Drop, y: real): real { (y - d.start.y + MAX_FALL) * 13.0 }

  /** A tick ends the descent, or sends an airborne packet and goes on from somewhere. */
  datatype Progress = Over(end: Descent) | Going(packet: Spot, at: Spot, v: real, resumed: nat)

  /** One tick of a fall at v. Every tick that goes on has used up a resume or dropped. */
  function Tock(d: Drop, tick: Tick, at: Spot, v: real, resumed: nat): (g: Progress)
    requires TERMINAL < v <= 0.0 && resumed <= MAX_RESUMES
    ensures g.Going? ==> TERMINAL < g.v <= 0.0 && resumed <= g.resumed <= MAX_RESUMES
    ensures g.Going? && g.resumed == resumed ==> g.at.y <= g.packet.y <= at.y - FIRST_DROP
  {
    var v' := Faster(v);
    var next := at.(y := at.y + v');
    if d.target.Some? && next.y <= d.target.value then
      var landing := Packet(at.(y := d.target.value), d.landOnGround);
      var fell := d.start.y - d.target.value;
      Over(if tick.sent then Descent([landing], AtTarget, fell) else Descent([], NotSent, fell))
    else if !tick.sent then Over(Descent([], NotSent, d.start.y - next.y))
    else Answered(d, tick, next, v', resumed)
  }

  /** The rest of a tick whose airborne packet has gone out. */
  function Answered(d: Drop, tick: Tick, next: Spot, v: real, resumed: nat): Progress {
    var airborne, seen := Packet(next, false), tick.Seen(next);
    if !tick.waited then Over(Descent([airborne], Interrupted, d.start.y - next.y))
    else if tick.died then Over(Descent([airborne], Died, d.start.y - seen.y))
    else if tick.corrected && resumed < MAX_RESUMES && tick.StillFalling(seen) then Going(next, seen, 0.0, resumed + 1)
    else if tick.corrected then
      Over(Descent(if tick.settled then [airborne, Packet(seen, true)] else [airborne],
                   if tick.settled then Settled else NotSent, d.start.y - seen.y))
    else Going(next, seen.(y := Lower(next.y, seen.y)), v, resumed)
  }

  /** The descent from `at`, falling at v, after t ticks and some resumed corrections. It
      ends whatever the server does. */
  function DescentFrom(d: Drop, outside: nat -> Tick, t: nat, at: Spot, v: real, resumed: nat): Descent
    requires TERMINAL < v <= 0.0 && resumed <= MAX_RESUMES
    decreases MAX_RESUMES - resumed, Room(d, at.y)
  {
    if d.start.y - at.y >= MAX_FALL then Descent([], FellTooFar, d.start.y - at.y)
    else
      match Tock(d, outside(t), at, v, resumed)
      case Over(end) => end
      case Going(packet, at', v', resumed') =>
        var rest := DescentFrom(d, outside, t + 1, at', v', resumed');
        rest.(packets := [Packet(packet, false)] + rest.packets)
  }

  lemma OneTick(d: Drop, outside: nat -> Tick, t: nat, at: Spot, v: real, resumed: nat)
    requires TERMINAL < v <= 0.0 && resumed <= MAX_RESUMES
    ensures var run := DescentFrom(d, outside, t, at, v, resumed);
            if d.start.y - at.y >= MAX_FALL then run == Descent([], FellTooFar, d.start.y - at.y)
            else
              match Tock(d, outside(t), at, v, resumed)
              case Over(end) => run == end
              case Going(packet, at', v', resumed') =>
                && run.packets != [] && run.packets[0] == Packet(packet, false)
                && run.(packets := run.packets[1..]) == DescentFrom(d, outside, t + 1, at', v', resumed')
  {
    hide Tock;
  }

  // --------------------------------------------------------------------- the tick loop

  /** What the client believes of itself, and the position packets it has sent. */
  class Body {
    var at: Spot
    var onGround: bool
    ghost var sent: seq<Packet>

    constructor (at: Spot)
      ensures this.at == at && sent == []
    {
      this.at, onGround, sent := at, false, [];
    }

    /** What the client believes is what it last told the server. */
    ghost predicate Landed()
      reads this
    {
      sent != [] && sent[|sent| - 1] == Packet(at, onGround)
    }

    /** Records a position, then sends it. */
    method SendPosition(to: Spot, grounded: bool, goes: bool) returns (err: bool)
      modifies this
      ensures at == to && onGround == grounded && err == !goes
      ensures sent == if goes then old(sent) + [Packet(to, grounded)] else old(sent)
    {
      at, onGround := to, grounded;
      if goes { sent := sent + [Packet(to, grounded)]; }
      err := !goes;
    }

    /** One tick of the loop. */
    method RunTick(d: Drop, tick: Tick, from: Spot, v: real, resumed: nat)
      returns (over: bool, fell: real, exit: Exit, to: Spot, v': real, resumed': nat)
      requires TERMINAL < v <= 0.0 && resumed <= MAX_RESUMES
      modifies this
      ensures match Tock(d, tick, from, v, resumed)
              case Over(end) => over && fell == end.fell && exit == end.exit && sent == old(sent) + end.packets
              case Going(packet, at', w, r) =>
                !over && to == at' && v' == w && resumed' == r && sent == old(sent) + [Packet(packet, false)]
      ensures over && (exit == AtTarget || exit == Settled) ==> Landed()
    {
      over, to, resumed', exit := true, from, resumed, Died;
      v' := Faster(v);
      var x, y, z := from.x, from.y + v', from.z;
      fell := d.start.y - y;
      if d.target.Some? && y <= d.target.value {
        var err := SendPosition(Spot(x, d.target.value, z), d.landOnGround, tick.sent);
        fell := d.start.y - d.target.value;
        exit := if err then NotSent else AtTarget;
        return;
      }
      var err := SendPosition(Spot(x, y, z), false, tick.sent);
      if err {
        exit := NotSent;
        return;
      }
      if !tick.waited {
        exit := Interrupted;
        return;
      }
      if tick.moved.Some? { at := tick.moved.value; }
      if tick.died {
        fell := d.start.y - at.y;
        return;
      }
      if tick.corrected {
        if resumed < MAX_RESUMES && tick.StillFalling(at) {
          over, to, v', resumed' := false, at, 0.0, resumed + 1;
          return;
        }
        fell := d.start.y - at.y;
        err := SendPosition(at, true, tick.settled);
        exit := if err then NotSent else Settled;
        return;
      }
      over, to := false, at.(y := Lower(y, at.y));
    }

    method Descend(d: Drop, outside: nat -> Tick) returns (fell: real, exit: Exit)
      modifies this
      ensures var run := DescentFrom(d, outside, 0, d.start, 0.0, 0);
              fell == run.fell && exit == run.exit && sent == old(sent) + run.packets
      ensures exit == AtTarget || exit == Settled ==> Landed()
    {
      hide Tock, DescentFrom;
      var spot, velocity, resumed, t := d.start, 0.0, 0, 0;
      ghost var all := DescentFrom(d, outside, 0, d.start, 0.0, 0);
      ghost var packets := [];
      while d.start.y - spot.y < MAX_FALL
        invariant TERMINAL < velocity <= 0.0 && 0 <= resumed <= MAX_RESUMES && t >= 0 && sent == old(sent) + packets
        invariant var rest := DescentFrom(d, outside, t, spot, velocity, resumed);
                  all == rest.(packets := packets + rest.packets)
        decreases MAX_RESUMES - resumed, Room(d, spot.y)
      {
        OneTick(d, outside, t, spot, velocity, resumed);
        ghost var rest := DescentFrom(d, outside, t, spot, velocity, resumed);
        var over;
        over, fell, exit, spot, velocity, resumed := RunTick(d, outside(t), spot, velocity, resumed);
        if over { return; }
        t := t + 1;
        assert packets + rest.packets == packets + [rest.packets[0]] + rest.packets[1..];
        packets := packets + [rest.packets[0]];
      }
      OneTick(d, outside, t, spot, velocity, resumed);
      assert packets + [] == packets;
      return d.start.y - spot.y, FellTooFar;
    }
  }

  // --------------------------------------------------------------- what every run keeps

  /** The target, when there is one, is above every height as far as it matters. */
  predicate Above(d: Drop, y: real) { d.target.Some? ==> y > d.target.value }

  /** Airborne packets are strictly above the target, and only the last packet can say the
      bot is on the ground: at the target, or where a correction put it. */
  ghost predicate Honest(d: Drop, run: Descent) {
    var n := |run.packets|;
    && (forall i | 0 <= i < n - 1 :: !run.packets[i].onGround && Above(d, run.packets[i].at.y))
    && (run.exit == AtTarget ==> n > 0 && d.target.Some? && run.packets[n - 1].at.y == d.target.value
                                 && run.packets[n - 1].onGround == d.landOnGround
                                 && run.fell == d.start.y - d.target.value)
    && (run.exit == Settled ==> n > 0 && run.packets[n - 1].onGround && run.fell == d.start.y - run.packets[n - 1].at.y)
    && (run.exit != AtTarget && run.exit != Settled && n > 0 ==>
          !run.packets[n - 1].onGround && Above(d, run.packets[n - 1].at.y))
  }

  lemma {:induction false} RunIsHonest(d: Drop, outside: nat -> Tick, t: nat, at: Spot, v: real, resumed: nat)
    requires TERMINAL < v <= 0.0 && resumed <= MAX_RESUMES
    ensures Honest(d, DescentFrom(d, outside, t, at, v, resumed))
    decreases MAX_RESUMES - resumed, Room(d, at.y)
  {
    if d.start.y - at.y < MAX_FALL {
      match Tock(d, outside(t), at, v, resumed)
      case Over(end) =>
      case Going(packet, at', v', resumed') =>
        RunIsHonest(d, outside, t + 1, at', v', resumed');
        var rest := DescentFrom(d, outside, t + 1, at', v', resumed');
        var run := DescentFrom(d, outside, t, at, v, resumed);
        assert forall i | 0 < i < |run.packets| :: run.packets[i] == rest.packets[i - 1];
    }
  }

  /** Between airborne packets the bot drops at least as far as in the first tick, except
      where a correction was resumed from. */
  lemma {:induction false} RunDrops(d: Drop, outside: nat -> Tick, t: nat, at: Spot, v: real, resumed: nat, i: nat)
    requires TERMINAL < v <= 0.0 && resumed <= MAX_RESUMES
    requires i < |DescentFrom(d, outside, t, at, v, resumed).packets|
    ensures var packets := DescentFrom(d, outside, t, at, v, resumed).packets;
            i + 1 < |packets| && !outside(t + i).corrected && Above(d, packets[i + 1].at.y) ==>
              packets[i + 1].at.y <= packets[i].at.y - FIRST_DROP
    decreases i
  {
    match Tock(d, outside(t), at, v, resumed)
    case Over(end) =>
    case Going(packet, at', v', resumed') =>
      var rest := DescentFrom(d, outside, t + 1, at', v', resumed').packets;
      if i > 0 {
        RunDrops(d, outside, t + 1, at', v', resumed', i - 1);
      } else if rest != [] {
        FirstPacketDrops(d, outside, t + 1, at', v', resumed');
      }
  }

  lemma FirstPacketDrops(d: Drop, outside: nat -> Tick, t: nat, at: Spot, v: real, resumed: nat)
    requires TERMINAL < v <= 0.0 && resumed <= MAX_RESUMES
    ensures var packets := DescentFrom(d, outside, t, at, v, resumed).packets;
            packets != [] && Above(d, packets[0].at.y) ==> packets[0].at.y <= at.y - FIRST_DROP
  {
  }

  /** A descent takes at most a fixed number of packets for each resume, as long as the
      server never puts the bot above where it started. */
  const PACKETS_PER_RESUME := 6658

  lemma {:induction false} RunIsShort(d: Drop, outside: nat -> Tick, t: nat, at: Spot, v: real, resumed: nat)
    requires TERMINAL < v <= 0.0 && resumed <= MAX_RESUMES && at.y <= d.start.y
    requires forall i :: outside(i).moved.Some? ==> outside(i).moved.value.y <= d.start.y
    ensures var n := |DescentFrom(d, outside, t, at, v, resumed).packets|;
            n as real <= (if Room(d, at.y) > 0.0 then Room(d, at.y) + 2.0 else 0.0)
                       + ((MAX_RESUMES - resumed) * PACKETS_PER_RESUME) as real
    decreases MAX_RESUMES - resumed, Room(d, at.y)
  {
    if d.start.y - at.y < MAX_FALL {
      match Tock(d, outside(t), at, v, resumed)
      case Over(end) =>
      case Going(packet, at', v', resumed') =>
        RunIsShort(d, outside, t + 1, at', v', resumed');
        if resumed' > resumed {
          assert Room(d, at'.y) <= 6656.0;
        }
    }
  }

  /** How many of k ticks from t on bring a correction. */
  ghost function Corrections(outside: nat -> Tick, t: nat, k: nat): nat
    decreases k
  {
    if k == 0 then 0 else (if outside(t).corrected then 1 else 0) + Corrections(outside, t + 1, k - 1)
  }

  /** A tick, after an airborne packet, that puts the bot 512 blocks or more below its start
      and does not itself end the descent, with c corrections before it. */
  predicate ThrownDown(d: Drop, tick: Tick, c: nat) {
    && tick.sent && tick.waited && !tick.died && tick.moved.Some? && d.start.y - tick.moved.value.y >= MAX_FALL
    && (tick.corrected ==> c < MAX_RESUMES && tick.StillFalling(tick.moved.value))
  }

  /** The run's last packet is airborne above the target, and its tick throws the bot down. */
  ghost predicate EndsThrown(d: Drop, outside: nat -> Tick, t: nat, packets: seq<Packet>, resumed: nat) {
    var n := |packets|;
    && n > 0 && !packets[n - 1].onGround && Above(d, packets[n - 1].at.y)
    && ThrownDown(d, outside(t + n - 1), resumed + Corrections(outside, t, n - 1))
  }

  /** Whatever the server does, a descent towards a target less than 512 below leaves by its
      limit exactly when the tick of its last packet throws the bot down. */
  lemma {:induction false} LimitExactly(d: Drop, outside: nat -> Tick, t: nat, at: Spot, v: real, resumed: nat)
    requires TERMINAL < v <= 0.0 && resumed <= MAX_RESUMES
    requires d.target.Some? && d.start.y - d.target.value < MAX_FALL && d.start.y - at.y < MAX_FALL
    ensures var run := DescentFrom(d, outside, t, at, v, resumed);
            run.exit == FellTooFar <==> EndsThrown(d, outside, t, run.packets, resumed)
    decreases MAX_RESUMES - resumed, Room(d, at.y)
  {
    OneTick(d, outside, t, at, v, resumed);
    match Tock(d, outside(t), at, v, resumed)
    case Over(end) => OverNotThrown(d, outside, t, at, v, resumed);
    case Going(packet, at', v', resumed') =>
      GoingThrown(d, outside, t, at, v, resumed);
      if d.start.y - at'.y < MAX_FALL {
        LimitExactly(d, outside, t + 1, at', v', resumed');
      }
  }

  /** A descent over at this tick was not thrown down by it. */
  lemma OverNotThrown(d: Drop, outside: nat -> Tick, t: nat, at: Spot, v: real, resumed: nat)
    requires TERMINAL < v <= 0.0 && resumed <= MAX_RESUMES && Tock(d, outside(t), at, v, resumed).Over?
    ensures var end := Tock(d, outside(t), at, v, resumed).end;
            end.exit != FellTooFar && (d.target.Some? ==> !EndsThrown(d, outside, t, end.packets, resumed))
  {
    assert Corrections(outside, t, 0) == 0;
  }

  lemma GoingFacts(d: Drop, tick: Tick, at: Spot, v: real, resumed: nat)
    requires TERMINAL < v <= 0.0 && resumed <= MAX_RESUMES && Tock(d, tick, at, v, resumed).Going?
    requires d.target.Some? && d.start.y - d.target.value < MAX_FALL
    ensures var g := Tock(d, tick, at, v, resumed);
            && Above(d, g.packet.y) && g.resumed == resumed + (if tick.corrected then 1 else 0)
            && (d.start.y - g.at.y >= MAX_FALL <==> ThrownDown(d, tick, resumed))
  {
  }

  /** One that goes on is thrown down by this tick, or later, as the rest of it is. */
  lemma GoingThrown(d: Drop, outside: nat -> Tick, t: nat, at: Spot, v: real, resumed: nat)
    requires TERMINAL < v <= 0.0 && resumed <= MAX_RESUMES && Tock(d, outside(t), at, v, resumed).Going?
    requires d.target.Some? && d.start.y - d.target.value < MAX_FALL && d.start.y - at.y < MAX_FALL
    ensures var run := DescentFrom(d, outside, t, at, v, resumed);
            var g := Tock(d, outside(t), at, v, resumed);
            var rest := DescentFrom(d, outside, t + 1, g.at, g.v, g.resumed);
            run.exit == rest.exit &&
            if d.start.y - g.at.y >= MAX_FALL then
              run.exit == FellTooFar && EndsThrown(d, outside, t, run.packets, resumed)
            else
              EndsThrown(d, outside, t, run.packets, resumed)
              <==> EndsThrown(d, outside, t + 1, rest.packets, g.resumed)
  {
    OneTick(d, outside, t, at, v, resumed);
    var g := Tock(d, outside(t), at, v, resumed);
    OneTick(d, outside, t + 1, g.at, g.v, g.resumed);
    GoingFacts(d, outside(t), at, v, resumed);
    var rest := DescentFrom(d, outside, t + 1, g.at, g.v, g.resumed);
    assert DescentFrom(d, outside, t, at, v, resumed).packets == [Packet(g.packet, false)] + rest.packets;
    hide DescentFrom, Tock, EndsThrown;
    OnePacket(d, outside, t, g.packet, rest.packets, resumed, g.resumed);
  }

  lemma OnePacket(d: Drop, outside: nat -> Tick, t: nat, packet: Spot, rest: seq<Packet>, resumed: nat, resumed': nat)
    requires Above(d, packet.y) && resumed' == resumed + (if outside(t).corrected then 1 else 0)
    ensures var packets := [Packet(packet, false)] + rest;
            if rest == [] then EndsThrown(d, outside, t, packets, resumed) <==> ThrownDown(d, outside(t), resumed)
            else EndsThrown(d, outside, t, packets, resumed) <==> EndsThrown(d, outside, t + 1, rest, resumed')
    ensures !EndsThrown(d, outside, t + 1, [], resumed')
  {
    var packets, n := [Packet(packet, false)] + rest, |rest|;
    assert Corrections(outside, t, 0) == 0;
    hide ThrownDown, Above;
    if n > 0 {
      assert packets[n] == rest[n - 1];
      assert Corrections(outside, t, n) == (if outside(t).corrected then 1 else 0) + Corrections(outside, t + 1, n - 1);
    }
  }

  /** With no tick moving the bot that far, it never does. */
  lemma StopsInTime(d: Drop, outside: nat -> Tick, t: nat, at: Spot, v: real, resumed: nat)
    requires TERMINAL < v <= 0.0 && resumed <= MAX_RESUMES
    requires d.target.Some? && d.start.y - d.target.value < MAX_FALL && d.start.y - at.y < MAX_FALL
    requires forall i: nat | i >= t && outside(i).moved.Some? :: d.start.y - outside(i).moved.value.y < MAX_FALL
    ensures DescentFrom(d, outside, t, at, v, resumed).exit != FellTooFar
  {
    LimitExactly(d, outside, t, at, v, resumed);
  }

  /** A tick on which nothing happens but the packet going out. */
  predicate Quiet(tick: Tick) { tick.sent && tick.waited && !tick.died && !tick.corrected && tick.moved == None }

  /** That every move be a counted correction is not enough: one correction, taken for a
      hiccup, to 512 blocks or more below. */
  lemma CorrectedTooFar(d: Drop, outside: nat -> Tick)
    requires d.target.Some? && d.start.y - FIRST_DROP > d.target.value && d.start.y - d.target.value < MAX_FALL
    requires outside(0) == Tick(true, true, false, true, Some(d.start.(y := d.start.y - MAX_FALL)),
                                Support(true, true, (d.start.y - MAX_FALL).Floor - 2, false, false), true)
    requires forall i: nat | i > 0 :: Quiet(outside(i))
    ensures DescentFrom(d, outside, 0, d.start, 0.0, 0).exit == FellTooFar
  {
    assert Faster(0.0) == -FIRST_DROP;
    assert outside(0).StillFalling(d.start.(y := d.start.y - MAX_FALL));
    GoingThrown(d, outside, 0, d.start, 0.0, 0);
  }

  /** Left alone, the bot lands on its target and reports the height it fell. */
  lemma {:induction false} QuietLanding(d: Drop, outside: nat -> Tick, t: nat, at: Spot, v: real, resumed: nat)
    requires TERMINAL < v <= 0.0 && resumed <= MAX_RESUMES && (forall i: nat :: Quiet(outside(i)))
    requires d.target.Some? && d.start.y - d.target.value < MAX_FALL && at.y > d.target.value && at.x == d.start.x
    requires at.z == d.start.z
    ensures var run := DescentFrom(d, outside, t, at, v, resumed);
            && run.exit == AtTarget && run.fell == d.start.y - d.target.value && run.packets != []
            && run.packets[|run.packets| - 1] == Packet(d.start.(y := d.target.value), d.landOnGround)
    decreases Room(d, at.y)
  {
    match Tock(d, outside(t), at, v, resumed)
    case Over(end) =>
    case Going(packet, at', v', resumed') => QuietLanding(d, outside, t + 1, at', v', resumed');
  }

  // ---------------------------------------------------------------------------- falling

  datatype Fell = Unloaded | Standing | IntoLava | Descended(drop: Drop)

  /** What a fall from here amounts to, by what is below. */
  function FallKind(s: Support, start: Spot): Fell {
    if !s.known then Unloaded
    else if !s.found then Descended(Drop(start, None, false))
    else if start.y <= s.groundY as real then Standing
    else if s.lava then IntoLava
    else Descended(Drop(start, Some(s.groundY as real), !s.water))
  }

  /** Left alone over a solid floor the search finds, the bot lands on top of it, says so in
      its last packet, and reports exactly how far that was. */
  lemma LandsOnTheFloor(s: Support, columns: Columns, matter: int32 -> Matter, start: Spot, outside: nat -> Tick)
    requires InI32(start.x.Floor) && InI32(start.y.Floor - 1) && InI32(start.z.Floor)
    requires Supports(s, true, columns, matter, start.x.Floor, start.y.Floor - 1, start.z.Floor)
    requires s.found && !s.water && !s.lava && start.y > s.groundY as real && forall i: nat :: Quiet(outside(i))
    ensures FallKind(s, start).Descended?
    ensures var run := DescentFrom(FallKind(s, start).drop, outside, 0, start, 0.0, 0);
            && run.exit == AtTarget && run.fell == start.y - s.groundY as real && run.packets != []
            && run.packets[|run.packets| - 1] == Packet(start.(y := s.groundY as real), true)
  {
    FloorIsNear(s, columns, matter, start, start.x.Floor, start.z.Floor);
    QuietLanding(FallKind(s, start).drop, outside, 0, start, 0.0, 0);
  }

  method GroundBelow(b: Body, w: World, matter: int32 -> Matter) returns (s: Support)
    requires w.Valid() && InI32(b.at.x.Floor) && InI32(b.at.y.Floor - 1) && InI32(b.at.z.Floor)
    ensures var x, y, z := b.at.x.Floor, b.at.y.Floor, b.at.z.Floor;
            Supports(s, KeyOf(x, z) in w.columns, w.columns, matter, x, y - 1, z)
  {
    s := FindGround(w, matter, b.at.x.Floor, b.at.y.Floor - 1, b.at.z.Floor);
  }

  /** Drops the bot until it lands. Over terrain not yet sent it stays put and says it stands;
      it refuses lava; in water it sinks without claiming ground. With no floor in sight it
      falls blind, which is an error if it falls too far. */
  method DropBot(b: Body, w: World, matter: int32 -> Matter, outside: nat -> Tick)
    returns (fell: real, err: bool, ghost s: Support)
    requires w.Valid() && InI32(b.at.x.Floor) && InI32(b.at.y.Floor - 1) && InI32(b.at.z.Floor)
    modifies b
    ensures Supports(s, KeyOf(old(b.at).x.Floor, old(b.at).z.Floor) in w.columns, w.columns, matter,
                     old(b.at).x.Floor, old(b.at).y.Floor - 1, old(b.at).z.Floor)
    ensures match FallKind(s, old(b.at))
            case Unloaded => !err && fell == 0.0 && b.onGround && b.sent == old(b.sent) && b.at == old(b.at)
            case Standing => !err && fell == 0.0 && b.sent == old(b.sent) && b.at == old(b.at)
            case IntoLava => err && b.sent == old(b.sent) && b.at == old(b.at)
            case Descended(drop) =>
              var run := DescentFrom(drop, outside, 0, drop.start, 0.0, 0);
              && b.sent == old(b.sent) + run.packets && fell == run.fell && Honest(drop, run)
              && err == (run.exit == NotSent || run.exit == Interrupted
                         || (run.exit == FellTooFar && drop.target.None?))
    // Unknown terrain, ground under the feet already, lava: no packet at all.
    ensures !s.known ==> !err && fell == 0.0 && b.onGround && b.sent == old(b.sent)
    ensures s.known && s.found && old(b.at).y <= s.groundY as real ==> !err && fell == 0.0 && b.sent == old(b.sent)
    ensures s.known && s.found && old(b.at).y > s.groundY as real && s.lava ==> err && b.sent == old(b.sent)
    // Otherwise a descent to the ground, on it unless it is water; or with none found, as far
    // as it goes.
    ensures s.known && (s.found ==> old(b.at).y > s.groundY as real && !s.lava) ==>
              var run := DescentFrom(Drop(old(b.at), if s.found then Some(s.groundY as real) else None,
                                          s.found && !s.water), outside, 0, old(b.at), 0.0, 0);
              && b.sent == old(b.sent) + run.packets && fell == run.fell
              && err == (run.exit == NotSent || run.exit == Interrupted || (run.exit == FellTooFar && !s.found))
  {
    var start := b.at;
    var below := GroundBelow(b, w, matter);
    s := below;
    if !below.known {
      b.onGround := true;
      return 0.0, false, below;
    }
    if below.found && start.y <= below.groundY as real { return 0.0, false, below; }
    if below.found && below.lava { return 0.0, true, below; }
    var drop :=
      if !below.found then Drop(start, None, false) else Drop(start, Some(below.groundY as real), !below.water);
    RunIsHonest(drop, outside, 0, drop.start, 0.0, 0);
    var exit;
    fell, exit := b.Descend(drop, outside);
    err := exit == NotSent || exit == Interrupted || (exit == FellTooFar && drop.target.None?);
  }
}
