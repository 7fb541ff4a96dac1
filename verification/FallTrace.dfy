/** The descent against a closed form: where every packet is, and why the run ends, from the
start, the ticks and the laws of falling alone. After k ticks from rest a body falls at
3.92 (1 - 0.98^k) blocks a tick. */
module FallTrace {
  import opened Words
  import opened Wire
  import opened Falling

  function Decay(k: nat): real { if k == 0 then 1.0 else 0.98 * Decay(k - 1) }

  /** The change of height in the tick that comes after k ticks from rest. */
  function Speed(k: nat): real { -3.92 * (1.0 - Decay(k)) }

  /** Ticks since the body was last at rest, before tick i of a run: a correction stops it. */
  function Since(outside: nat -> Tick, t: nat, k: nat, i: nat): nat
    decreases i
  {
    if i == 0 then k else if outside(t + i - 1).corrected then 0 else Since(outside, t, k, i - 1) + 1
  }

  /** Where tick i falls from: the start; or where the last packet left the bot, moved by the
      server; no higher than it was unless the server corrected it. */
  ghost function From(outside: nat -> Tick, t: nat, at: Spot, packets: seq<Packet>, i: nat): Spot
    requires i <= |packets|
  {
    if i == 0 then at
    else
      var tick, sent := outside(t + i - 1), packets[i - 1].at;
      var seen := if tick.moved.Some? then tick.moved.value else sent;
      if tick.corrected || seen.y <= sent.y then seen else seen.(y := sent.y)
  }

  ghost function Next(outside: nat -> Tick, t: nat, at: Spot, k: nat, packets: seq<Packet>, i: nat): Spot
    requires i <= |packets|
  {
    var from := From(outside, t, at, packets, i);
    from.(y := from.y + Speed(Since(outside, t, k, i) + 1))
  }

  /** The tick left the bot in the air, by itself or because a correction was no landing: the
      ground is known to be more than a block below, and fewer than eight came before. */
  ghost predicate GoesOn(tick: Tick, seen: Spot, resumed: nat) {
    && tick.sent && tick.waited && !tick.died
    && (tick.corrected ==>
          resumed < 8 && tick.support.known && tick.support.found
          && seen.y - tick.support.groundY as real > 1.0)
  }

  /** A run of m airborne packets, and what ended it. */
  ghost predicate Traced(d: Drop, outside: nat -> Tick, t: nat, at: Spot, k: nat, resumed: nat, run: Descent, m: nat) {
    && m <= |run.packets|
    && (forall i: nat | i < m :: Flies(d, outside, t, at, k, run.packets, i))
    && (forall i: nat | i + 1 < m :: Continues(outside, t, resumed, run.packets, i))
    && Ends(d, outside, t, at, k, resumed, run, m)
  }

  ghost predicate Flies(d: Drop, outside: nat -> Tick, t: nat, at: Spot, k: nat, packets: seq<Packet>, i: nat)
    requires i < |packets|
  {
    && packets[i] == Packet(Next(outside, t, at, k, packets, i), false)
    && (d.target.Some? ==> packets[i].at.y > d.target.value)
    && d.start.y - From(outside, t, at, packets, i).y < 512.0
  }

  ghost predicate Continues(outside: nat -> Tick, t: nat, resumed: nat, packets: seq<Packet>, i: nat)
    requires i < |packets|
  {
    GoesOn(outside(t + i), outside(t + i).Seen(packets[i].at), resumed + Corrections(outside, t, i))
  }

  /** Why the run ends after m airborne packets. */
  ghost predicate Ends(d: Drop, outside: nat -> Tick, t: nat, at: Spot, k: nat, resumed: nat, run: Descent, m: nat)
    requires m <= |run.packets|
  {
    var n := |run.packets|;
    match run.exit
    case FellTooFar =>
      && n == m && (m > 0 ==> Continues(outside, t, resumed, run.packets, m - 1))
      && run.fell == d.start.y - From(outside, t, at, run.packets, m).y >= 512.0
    case AtTarget =>
      && n == m + 1 && (m > 0 ==> Continues(outside, t, resumed, run.packets, m - 1)) && outside(t + m).sent
      && Lands(d, outside, t, at, k, run.packets, m)
      && run.packets[m] == Packet(From(outside, t, at, run.packets, m).(y := d.target.value), d.landOnGround)
      && run.fell == d.start.y - d.target.value
    case NotSent =>
      && n == m
      && if m > 0 && !Continues(outside, t, resumed, run.packets, m - 1) then
           && LandedOn(outside, t, resumed, run.packets, m) && !outside(t + m - 1).settled
           && run.fell == d.start.y - outside(t + m - 1).Seen(run.packets[m - 1].at).y
         else
           && !outside(t + m).sent && d.start.y - From(outside, t, at, run.packets, m).y < 512.0
           && run.fell == d.start.y - (if Lands(d, outside, t, at, k, run.packets, m) then d.target.value
                                       else Next(outside, t, at, k, run.packets, m).y)
    case Interrupted =>
      && n == m > 0 && outside(t + m - 1).sent && !outside(t + m - 1).waited
      && run.fell == d.start.y - run.packets[m - 1].at.y
    case Died =>
      && n == m > 0 && outside(t + m - 1).sent && outside(t + m - 1).waited && outside(t + m - 1).died
      && run.fell == d.start.y - outside(t + m - 1).Seen(run.packets[m - 1].at).y
    case Settled =>
      && n == m + 1 && m > 0 && LandedOn(outside, t, resumed, run.packets, m) && outside(t + m - 1).settled
      && run.packets[m] == Packet(outside(t + m - 1).Seen(run.packets[m - 1].at), true)
      && run.fell == d.start.y - run.packets[m].at.y
  }

  /** The next drop reaches the target. */
  ghost predicate Lands(d: Drop, outside: nat -> Tick, t: nat, at: Spot, k: nat, packets: seq<Packet>, i: nat)
    requires i <= |packets|
  {
    && d.target.Some? && Next(outside, t, at, k, packets, i).y <= d.target.value
    && d.start.y - From(outside, t, at, packets, i).y < 512.0
  }

  /** The last airborne packet was answered by a correction that was a landing. */
  ghost predicate LandedOn(outside: nat -> Tick, t: nat, resumed: nat, packets: seq<Packet>, m: nat)
    requires 0 < m <= |packets|
  {
    var tick := outside(t + m - 1);
    && tick.sent && tick.waited && !tick.died && tick.corrected && !Continues(outside, t, resumed, packets, m - 1)
  }

  // ------------------------------------------------------------------------- the proof

  lemma {:induction false} DecayBounds(k: nat)
    ensures 0.0 < Decay(k) <= 1.0
  {
    if k > 0 { DecayBounds(k - 1); }
  }

  lemma SpeedStep(k: nat)
    ensures -3.92 < Speed(k) <= 0.0 && Speed(0) == 0.0 && Faster(Speed(k)) == Speed(k + 1)
  {
    DecayBounds(k);
  }

  lemma {:induction false} SinceShift(outside: nat -> Tick, t: nat, k: nat, i: nat)
    ensures Since(outside, t, k, i + 1) == Since(outside, t + 1, if outside(t).corrected then 0 else k + 1, i)
    decreases i
  {
    if i > 0 { SinceShift(outside, t, k, i - 1); }
  }

  lemma FromShift(outside: nat -> Tick, t: nat, at: Spot, packets: seq<Packet>, i: nat)
    requires 0 < |packets| && i < |packets|
    ensures From(outside, t, at, packets, i + 1)
         == From(outside, t + 1, From(outside, t, at, packets, 1), packets[1..], i)
  {
  }

  /** A run traced from the second packet on is traced from the first. */
  lemma StepTraced(d: Drop, outside: nat -> Tick, t: nat, at: Spot, k: nat, resumed: nat, rest: Descent, m: nat)
    requires d.start.y - at.y < 512.0
    requires var next := at.(y := at.y + Speed(k + 1));
             var all := rest.(packets := [Packet(next, false)] + rest.packets);
             var tick := outside(t);
             && (d.target.Some? ==> next.y > d.target.value) && GoesOn(tick, tick.Seen(next), resumed)
             && Traced(d, outside, t + 1, From(outside, t, at, all.packets, 1), if tick.corrected then 0 else k + 1,
                       resumed + (if tick.corrected then 1 else 0), rest, m)
    ensures Traced(d, outside, t, at, k, resumed,
                   rest.(packets := [Packet(at.(y := at.y + Speed(k + 1)), false)] + rest.packets), m + 1)
  {
    hide Speed, Flies, Continues, GoesOn, Ends;
    var next := at.(y := at.y + Speed(k + 1));
    var all := rest.(packets := [Packet(next, false)] + rest.packets);
    var at', k' := From(outside, t, at, all.packets, 1), if outside(t).corrected then 0 else k + 1;
    var resumed' := resumed + (if outside(t).corrected then 1 else 0);
    assert all.packets[1..] == rest.packets;
    FirstFlies(d, outside, t, at, k, resumed, all.packets);
    forall i: nat | i < m + 1 ensures Flies(d, outside, t, at, k, all.packets, i) {
      if i > 0 {
        assert Flies(d, outside, t + 1, at', k', rest.packets, i - 1);
        FliesShift(d, outside, t, at, k, all.packets, i - 1);
      }
    }
    forall i: nat | i < m ensures Continues(outside, t, resumed, all.packets, i) {
      if i > 0 {
        assert Continues(outside, t + 1, resumed', rest.packets, i - 1);
        ContinuesShift(outside, t, resumed, all.packets, i - 1);
      }
    }
    EndsShift(d, outside, t, at, k, resumed, all, rest, m);
  }

  lemma FirstFlies(d: Drop, outside: nat -> Tick, t: nat, at: Spot, k: nat, resumed: nat, packets: seq<Packet>)
    requires packets != [] && packets[0] == Packet(at.(y := at.y + Speed(k + 1)), false)
    requires (d.target.Some? ==> packets[0].at.y > d.target.value) && d.start.y - at.y < 512.0
    requires GoesOn(outside(t), outside(t).Seen(packets[0].at), resumed)
    ensures Flies(d, outside, t, at, k, packets, 0) && Continues(outside, t, resumed, packets, 0)
  {
    assert Corrections(outside, t, 0) == 0;
  }

  lemma FliesShift(d: Drop, outside: nat -> Tick, t: nat, at: Spot, k: nat, packets: seq<Packet>, i: nat)
    requires i + 1 < |packets|
    ensures Flies(d, outside, t, at, k, packets, i + 1)
       <==> Flies(d, outside, t + 1, From(outside, t, at, packets, 1), if outside(t).corrected then 0 else k + 1,
                  packets[1..], i)
  {
    hide Speed;
    NextShift(outside, t, at, k, packets, i);
  }

  lemma NextShift(outside: nat -> Tick, t: nat, at: Spot, k: nat, packets: seq<Packet>, i: nat)
    requires i < |packets|
    ensures From(outside, t, at, packets, i + 1)
         == From(outside, t + 1, From(outside, t, at, packets, 1), packets[1..], i)
    ensures Next(outside, t, at, k, packets, i + 1)
         == Next(outside, t + 1, From(outside, t, at, packets, 1),
                 if outside(t).corrected then 0 else k + 1, packets[1..], i)
  {
    hide Speed, From;
    FromShift(outside, t, at, packets, i);
    SinceShift(outside, t, k, i);
  }

  lemma ContinuesShift(outside: nat -> Tick, t: nat, resumed: nat, packets: seq<Packet>, i: nat)
    requires i + 1 < |packets|
    ensures Continues(outside, t, resumed, packets, i + 1)
       <==> Continues(outside, t + 1, resumed + (if outside(t).corrected then 1 else 0), packets[1..], i)
  {
    assert packets[1..][i] == packets[i + 1];
  }

  lemma EndsShift(d: Drop, outside: nat -> Tick, t: nat, at: Spot, k: nat, resumed: nat,
                  all: Descent, rest: Descent, m: nat)
    requires all.packets != [] && rest == all.(packets := all.packets[1..]) && m <= |rest.packets|
    requires Continues(outside, t, resumed, all.packets, 0)
    requires Ends(d, outside, t + 1, From(outside, t, at, all.packets, 1), if outside(t).corrected then 0 else k + 1,
                  resumed + (if outside(t).corrected then 1 else 0), rest, m)
    ensures Ends(d, outside, t, at, k, resumed, all, m + 1)
  {
    hide Speed, From, Next, Continues;
    NextShift(outside, t, at, k, all.packets, m);
    if m > 0 { ContinuesShift(outside, t, resumed, all.packets, m - 1); }
  }

  /** Every descent is traced, whatever the server does. */
  lemma {:induction false} DescentTraced(d: Drop, outside: nat -> Tick, t: nat, at: Spot, k: nat, resumed: nat)
    returns (m: nat)
    requires resumed <= 8 && -3.92 < Speed(k) <= 0.0
    ensures Traced(d, outside, t, at, k, resumed, DescentFrom(d, outside, t, at, Speed(k), resumed), m)
    decreases 8 - resumed, Room(d, at.y)
  {
    hide Speed, DescentFrom, Tock, Traced;
    SpeedStep(k);
    OneTick(d, outside, t, at, Speed(k), resumed);
    if d.start.y - at.y >= 512.0 {
      m := 0;
      TooFarTraced(d, outside, t, at, k, resumed);
    } else {
      match Tock(d, outside(t), at, Speed(k), resumed)
      case Over(end) => m := OverTraced(d, outside, t, at, k, resumed);
      case Going(packet, at', v', resumed') =>
        var k' := if outside(t).corrected then 0 else k + 1;
        var rest := DescentFrom(d, outside, t + 1, at', v', resumed');
        GoingIs(d, outside, t, at, k, resumed, rest.packets);
        SpeedStep(k');
        var n := DescentTraced(d, outside, t + 1, at', k', resumed');
        m := n + 1;
        StepTraced(d, outside, t, at, k, resumed, rest, n);
        RunIs(d, outside, t, at, k, resumed);
    }
  }

  lemma TooFarTraced(d: Drop, outside: nat -> Tick, t: nat, at: Spot, k: nat, resumed: nat)
    requires d.start.y - at.y >= 512.0
    ensures Traced(d, outside, t, at, k, resumed, Descent([], FellTooFar, d.start.y - at.y), 0)
  {
  }

  lemma GoingIs(d: Drop, outside: nat -> Tick, t: nat, at: Spot, k: nat, resumed: nat, rest: seq<Packet>)
    requires resumed <= 8 && -3.92 < Speed(k) <= 0.0 && Faster(Speed(k)) == Speed(k + 1) && Speed(0) == 0.0
    requires Tock(d, outside(t), at, Speed(k), resumed).Going?
    ensures var g, tick, next := Tock(d, outside(t), at, Speed(k), resumed), outside(t), at.(y := at.y + Speed(k + 1));
            && g.packet == next && (d.target.Some? ==> next.y > d.target.value)
            && GoesOn(tick, tick.Seen(next), resumed)
            && g.at == From(outside, t, at, [Packet(next, false)] + rest, 1)
            && g.v == Speed(if tick.corrected then 0 else k + 1)
            && g.resumed == resumed + (if tick.corrected then 1 else 0)
  {
    hide Speed, Faster;
  }

  lemma RunIs(d: Drop, outside: nat -> Tick, t: nat, at: Spot, k: nat, resumed: nat)
    requires resumed <= 8 && -3.92 < Speed(k) <= 0.0 && d.start.y - at.y < MAX_FALL
    requires Tock(d, outside(t), at, Speed(k), resumed).Going?
    ensures var g := Tock(d, outside(t), at, Speed(k), resumed);
            var rest := DescentFrom(d, outside, t + 1, g.at, g.v, g.resumed);
            DescentFrom(d, outside, t, at, Speed(k), resumed)
              == rest.(packets := [Packet(g.packet, false)] + rest.packets)
  {
    hide Speed, Tock;
  }

  lemma OverTraced(d: Drop, outside: nat -> Tick, t: nat, at: Spot, k: nat, resumed: nat) returns (m: nat)
    requires resumed <= 8 && -3.92 < Speed(k) <= 0.0 && Faster(Speed(k)) == Speed(k + 1) && d.start.y - at.y < 512.0
    requires Tock(d, outside(t), at, Speed(k), resumed).Over?
    ensures Traced(d, outside, t, at, k, resumed, Tock(d, outside(t), at, Speed(k), resumed).end, m)
  {
    hide Speed, Faster;
    var tick, next := outside(t), at.(y := at.y + Speed(k + 1));
    m := if (d.target.Some? && next.y <= d.target.value) || !tick.sent then 0 else 1;
    assert Corrections(outside, t, 0) == 0;
  }

  // ------------------------------------------------------------------------ free fall

  /** How far a body at rest falls in n ticks. */
  function Depth(n: nat): real { 3.92 * n as real - 192.08 * (1.0 - Decay(n)) }

  lemma DepthStep(k: nat)
    ensures Depth(k + 1) == Depth(k) - Speed(k + 1) && Depth(k) <= Depth(k + 1)
  {
    SpeedStep(k + 1);
    assert (k + 1) as real == k as real + 1.0;
  }

  lemma {:induction false} DepthGrows(j: nat, k: nat)
    requires j <= k
    ensures Depth(j) <= Depth(k)
    decreases k
  {
    if j < k {
      DepthGrows(j, k - 1);
      DepthStep(k - 1);
    }
  }

  lemma {:induction false} FallsFrom(d: Drop, outside: nat -> Tick, t: nat, at: Spot, k: nat, resumed: nat, n: nat)
    requires (forall i: nat :: Quiet(outside(i))) && n > 0 && resumed <= 8 && -3.92 < Speed(k) <= 0.0
    requires d.start.y - at.y + (Depth(k + n) - Depth(k)) < 512.0
    requires d.target.Some? ==> at.y - (Depth(k + n) - Depth(k)) > d.target.value
    ensures var run := DescentFrom(d, outside, t, at, Speed(k), resumed);
            && |run.packets| >= n
            && run.packets[n - 1] == Packet(at.(y := at.y - (Depth(k + n) - Depth(k))), false)
    decreases n
  {
    hide Speed, Depth, DescentFrom, Tock;
    SpeedStep(k);
    SpeedStep(k + 1);
    DepthStep(k);
    DepthGrows(k, k + n);
    DepthGrows(k + 1, k + n);
    OneTick(d, outside, t, at, Speed(k), resumed);
    QuietGoes(d, outside, t, at, k, resumed);
    var at' := at.(y := at.y + Speed(k + 1));
    if n > 1 {
      FallsFrom(d, outside, t + 1, at', k + 1, resumed, n - 1);
      RunIs(d, outside, t, at, k, resumed);
    }
  }

  lemma QuietGoes(d: Drop, outside: nat -> Tick, t: nat, at: Spot, k: nat, resumed: nat)
    requires Quiet(outside(t)) && resumed <= 8 && -3.92 < Speed(k) <= 0.0 && Faster(Speed(k)) == Speed(k + 1)
    requires d.target.Some? ==> at.y + Speed(k + 1) > d.target.value
    ensures var next := at.(y := at.y + Speed(k + 1));
            Tock(d, outside(t), at, Speed(k), resumed) == Going(next, next, Speed(k + 1), resumed)
  {
    hide Speed, Faster;
  }

  /** Over n quiet ticks from rest, packet n is 3.92 n - 192.08 (1 - 0.98^n) below the start,
      while that is above the target and less than 512 below. */
  lemma FreeFall(d: Drop, outside: nat -> Tick, n: nat)
    requires (forall i: nat :: Quiet(outside(i))) && n > 0 && 3.92 * n as real - 192.08 * (1.0 - Decay(n)) < 512.0
    requires d.target.Some? ==> d.start.y - (3.92 * n as real - 192.08 * (1.0 - Decay(n))) > d.target.value
    ensures var run := DescentFrom(d, outside, 0, d.start, 0.0, 0);
            && |run.packets| >= n && !run.packets[n - 1].onGround
            && run.packets[n - 1].at == d.start.(y := d.start.y - (3.92 * n as real - 192.08 * (1.0 - Decay(n))))
  {
    SpeedStep(0);
    FallsFrom(d, outside, 0, d.start, 0, 0, n);
  }
}
