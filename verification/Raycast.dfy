/** The voxel ray walk (`internal/geom/raycast.go`, `internal/geom/geom.go`) over the reals.
A ray parallel to an axis never crosses that axis's boundaries; `Never` is its infinite
boundary distance. */
module Raycast {
  datatype Vec = Vec(x: real, y: real, z: real)
  datatype Voxel = Voxel(x: int, y: int, z: int)
  datatype Ray = Ray(o: Vec, d: Vec)

  datatype Face = Bottom | Top | North | South | West | East

  /** A distance along the ray, possibly infinite. */
  datatype Time = At(t: real) | Never

  predicate Leq(a: Time, b: Time) {
    b.Never? || (a.At? && a.t <= b.t)
  }

  /** The block containing a position: floor, not truncation. */
  function BlockPos(p: Vec): Voxel { Voxel(p.x.Floor, p.y.Floor, p.z.Floor) }

  // ------------------------------------------------------------------ geometry of a ray

  function Along(o: real, d: real, t: real): real { o + d * t }

  function PointAt(r: Ray, t: real): Vec {
    Vec(Along(r.o.x, r.d.x, t), Along(r.o.y, r.d.y, t), Along(r.o.z, r.d.z, t))
  }

  predicate Between(v: int, p: real) { v as real <= p <= v as real + 1.0 }

  predicate StrictlyBetween(v: int, p: real) { (v as real) < p < v as real + 1.0 }

  /** The ray is in the closed box of a voxel at parameter t. */
  predicate Touches(r: Ray, v: Voxel, t: real) {
    var p := PointAt(r, t);
    Between(v.x, p.x) && Between(v.y, p.y) && Between(v.z, p.z)
  }

  /** The ray is in the open interior of a voxel at parameter t. */
  predicate Inside(r: Ray, v: Voxel, t: real) {
    var p := PointAt(r, t);
    StrictlyBetween(v.x, p.x) && StrictlyBetween(v.y, p.y) && StrictlyBetween(v.z, p.z)
  }

  lemma InsideIsUnique(r: Ray, v: Voxel, w: Voxel, t: real)
    requires Inside(r, v, t) && Touches(r, w, t)
    ensures v == w
  {
  }

  predicate ShareFace(v: Voxel, w: Voxel) {
    || (v.y == w.y && v.z == w.z && (w.x == v.x + 1 || w.x == v.x - 1))
    || (v.x == w.x && v.z == w.z && (w.y == v.y + 1 || w.y == v.y - 1))
    || (v.x == w.x && v.y == w.y && (w.z == v.z + 1 || w.z == v.z - 1))
  }

  predicate OnFace(v: Voxel, f: Face, p: Vec) {
    match f
    case West => p.x == v.x as real
    case East => p.x == v.x as real + 1.0
    case Bottom => p.y == v.y as real
    case Top => p.y == v.y as real + 1.0
    case North => p.z == v.z as real
    case South => p.z == v.z as real + 1.0
  }

  // ------------------------------------------------------------------ one axis at a time

  function AxisStep(d: real): int { if d > 0.0 then 1 else -1 }

  function Boundary(origin: real, voxel: int, step: int): real {
    if step > 0 then (voxel + 1) as real - origin else origin - voxel as real
  }

  function Abs(d: real): real { if d < 0.0 then -d else d }

  function SafeDiv(n: real, d: real): Time {
    if d == 0.0 then Never else At(n / Abs(d))
  }

  function Plus(a: Time, b: Time): Time {
    if a.At? && b.At? then At(a.t + b.t) else Never
  }

  /** On one axis: the ray is within voxel v's slab at `dist`, and leaves it at tMax. */
  ghost predicate AxisOk(o: real, d: real, v: int, tMax: Time, dist: real) {
    && dist >= 0.0
    && (d == 0.0 ==> tMax.Never? && Between(v, o))
    && (d > 0.0 ==>
          && tMax.At? && dist <= tMax.t && Along(o, d, tMax.t) == v as real + 1.0
          && v as real <= Along(o, d, dist))
    && (d < 0.0 ==>
          && tMax.At? && dist <= tMax.t && Along(o, d, tMax.t) == v as real
          && Along(o, d, dist) <= v as real + 1.0)
  }

  lemma MulMono(d: real, s: real, t: real)
    requires d >= 0.0 && s <= t
    ensures d * s <= d * t
  {
  }

  lemma DivMul(n: real, d: real)
    requires d != 0.0
    ensures d * (n / d) == n
  {
  }

  lemma AxisStart(o: real, d: real)
    ensures AxisOk(o, d, o.Floor, SafeDiv(Boundary(o, o.Floor, AxisStep(d)), d), 0.0)
  {
    if d != 0.0 {
      var n := Boundary(o, o.Floor, AxisStep(d));
      var t := n / Abs(d);
      DivMul(n, Abs(d));
      if t < 0.0 { MulMono(Abs(d), t, 0.0); }
    }
  }

  /** While another axis is advanced to dist', this one stays in its slab. */
  lemma AxisWaits(o: real, d: real, v: int, tMax: Time, dist: real, dist': real)
    requires AxisOk(o, d, v, tMax, dist) && dist <= dist' && Leq(At(dist'), tMax)
    ensures AxisOk(o, d, v, tMax, dist')
  {
    MulMono(Abs(d), dist, dist');
  }

  lemma AxisAdvances(o: real, d: real, v: int, tMax: Time, dist: real)
    requires AxisOk(o, d, v, tMax, dist) && tMax.At?
    ensures dist <= tMax.t
    ensures AxisOk(o, d, v + AxisStep(d), Plus(tMax, SafeDiv(1.0, d)), tMax.t)
    ensures Along(o, d, tMax.t) == if d > 0.0 then (v + 1) as real else (v - 1) as real + 1.0
  {
    var delta := 1.0 / Abs(d);
    DivMul(1.0, Abs(d));
    if delta < 0.0 { MulMono(Abs(d), delta, 0.0); }
    assert d * (tMax.t + delta) == d * tMax.t + d * delta;
  }

  lemma AxisTouches(o: real, d: real, v: int, tMax: Time, dist: real, t: real)
    requires AxisOk(o, d, v, tMax, dist) && dist <= t && Leq(At(t), tMax)
    ensures Between(v, Along(o, d, t))
  {
    AxisWaits(o, d, v, tMax, dist, t);
    if d != 0.0 { MulMono(Abs(d), t, tMax.t); }
  }

  /** How far an axis can have come: boundaries crossed against distance travelled. */
  function Crossed(o: real, d: real, v: int): int { (v - o.Floor) * AxisStep(d) }

  lemma CrossingBound(o: real, d: real, v: int, tMax: Time, dist: real, limit: real)
    requires AxisOk(o, d, v, tMax, dist) && dist <= limit
    ensures Crossed(o, d, v) as real <= 1.0 + Abs(d) * limit
  {
    MulMono(Abs(d), dist, limit);
    MulMono(Abs(d), 0.0, dist);
    if d > 0.0 {
      assert Crossed(o, d, v) == v - o.Floor;
    } else if d < 0.0 {
      assert Crossed(o, d, v) == o.Floor - v;
    } else {
      assert -1 <= v - o.Floor <= 0;
      assert Crossed(o, d, v) == o.Floor - v;
    }
  }

  // ------------------------------------------------------------------------- the walk

  /** All three axes at once: where the walk stands between two steps. */
  ghost predicate AtVoxel(r: Ray, v: Voxel, tx: Time, ty: Time, tz: Time, dist: real) {
    AxisOk(r.o.x, r.d.x, v.x, tx, dist) && AxisOk(r.o.y, r.d.y, v.y, ty, dist) && AxisOk(r.o.z, r.d.z, v.z, tz, dist)
  }

  /** Until the nearest boundary the ray is in the current voxel and enters no other. */
  lemma OnlyThisVoxel(r: Ray, v: Voxel, tx: Time, ty: Time, tz: Time, dist: real, t: real)
    requires AtVoxel(r, v, tx, ty, tz, dist)
    requires dist <= t && Leq(At(t), tx) && Leq(At(t), ty) && Leq(At(t), tz)
    ensures dist >= 0.0 && Touches(r, v, t)
    ensures forall w: Voxel :: Inside(r, w, t) ==> w == v
  {
    AxisTouches(r.o.x, r.d.x, v.x, tx, dist, t);
    AxisTouches(r.o.y, r.d.y, v.y, ty, dist, t);
    AxisTouches(r.o.z, r.d.z, v.z, tz, dist, t);
    forall w: Voxel | Inside(r, w, t) ensures w == v {
      InsideIsUnique(r, w, v, t);
    }
  }

  /** Every voxel the ray is inside of before `dist` is among those visited. */
  ghost predicate Covered(r: Ray, dist: Time, path: seq<Voxel>) {
    forall t: real, w: Voxel :: 0.0 <= t && !Leq(dist, At(t)) && Inside(r, w, t) ==> w in path
  }

  lemma CoverMore(r: Ray, v: Voxel, tx: Time, ty: Time, tz: Time, dist: real, next: Time, path: seq<Voxel>)
    requires AtVoxel(r, v, tx, ty, tz, dist) && Covered(r, At(dist), path)
    requires Leq(next, tx) && Leq(next, ty) && Leq(next, tz)
    ensures Covered(r, next, path + [v])
  {
    forall t: real, w: Voxel | 0.0 <= t && !Leq(next, At(t)) && Inside(r, w, t)
      ensures w in path + [v]
    {
      if dist <= t {
        OnlyThisVoxel(r, v, tx, ty, tz, dist, t);
        assert (path + [v])[|path|] == v;
      } else {
        assert w in path;
      }
    }
  }

  ghost predicate Connected(path: seq<Voxel>) {
    forall k | 0 < k < |path| :: ShareFace(path[k - 1], path[k])
  }

  function AllCrossed(r: Ray, v: Voxel): int {
    Crossed(r.o.x, r.d.x, v.x) + Crossed(r.o.y, r.d.y, v.y) + Crossed(r.o.z, r.d.z, v.z)
  }

  /** Steps a walk of this length can take: linear in the distance and the direction. */
  function StepBound(r: Ray, maxDist: real): real {
    3.0 + (Abs(r.d.x) * maxDist + Abs(r.d.y) * maxDist + Abs(r.d.z) * maxDist)
  }

  lemma SumOfSteps(a: int, b: int, c: int)
    ensures (a + b + c) as real == a as real + b as real + c as real
  {
  }

  lemma StepsBounded(r: Ray, v: Voxel, tx: Time, ty: Time, tz: Time, dist: real, maxDist: real)
    requires AtVoxel(r, v, tx, ty, tz, dist) && dist <= maxDist
    ensures AllCrossed(r, v) as real <= StepBound(r, maxDist)
  {
    hide Crossed, AxisOk, Abs;
    SumOfSteps(Crossed(r.o.x, r.d.x, v.x), Crossed(r.o.y, r.d.y, v.y), Crossed(r.o.z, r.d.z, v.z));
    CrossingBound(r.o.x, r.d.x, v.x, tx, dist, maxDist);
    CrossingBound(r.o.y, r.d.y, v.y, ty, dist, maxDist);
    CrossingBound(r.o.z, r.d.z, v.z, tz, dist, maxDist);
  }

  function FaceForStep(step: int, positiveSide: Face, negativeSide: Face): Face {
    if step > 0 then negativeSide else positiveSide
  }

  /** Where the walk stands after advancing along one axis: the ray has crossed exactly one
      boundary more, and lies on the face it entered the neighbouring voxel through. */
  ghost predicate Entered(r: Ray, v: Voxel, w: Voxel, face: Face, t: real) {
    ShareFace(v, w) && OnFace(w, face, PointAt(r, t)) && AllCrossed(r, w) == AllCrossed(r, v) + 1
  }

  lemma AdvanceX(r: Ray, v: Voxel, tx: Time, ty: Time, tz: Time, dist: real)
    requires AtVoxel(r, v, tx, ty, tz, dist) && tx.At? && Leq(tx, ty) && Leq(tx, tz)
    ensures var w := v.(x := v.x + AxisStep(r.d.x));
            && AtVoxel(r, w, Plus(tx, SafeDiv(1.0, r.d.x)), ty, tz, tx.t)
            && Entered(r, v, w, FaceForStep(AxisStep(r.d.x), East, West), tx.t)
  {
    AxisAdvances(r.o.x, r.d.x, v.x, tx, dist);
    AxisWaits(r.o.y, r.d.y, v.y, ty, dist, tx.t);
    AxisWaits(r.o.z, r.d.z, v.z, tz, dist, tx.t);
  }

  lemma AdvanceY(r: Ray, v: Voxel, tx: Time, ty: Time, tz: Time, dist: real)
    requires AtVoxel(r, v, tx, ty, tz, dist) && ty.At? && Leq(ty, tx) && Leq(ty, tz)
    ensures var w := v.(y := v.y + AxisStep(r.d.y));
            && AtVoxel(r, w, tx, Plus(ty, SafeDiv(1.0, r.d.y)), tz, ty.t)
            && Entered(r, v, w, FaceForStep(AxisStep(r.d.y), Top, Bottom), ty.t)
  {
    AxisAdvances(r.o.y, r.d.y, v.y, ty, dist);
    AxisWaits(r.o.x, r.d.x, v.x, tx, dist, ty.t);
    AxisWaits(r.o.z, r.d.z, v.z, tz, dist, ty.t);
  }

  lemma AdvanceZ(r: Ray, v: Voxel, tx: Time, ty: Time, tz: Time, dist: real)
    requires AtVoxel(r, v, tx, ty, tz, dist) && tz.At? && Leq(tz, tx) && Leq(tz, ty)
    ensures var w := v.(z := v.z + AxisStep(r.d.z));
            && AtVoxel(r, w, tx, ty, Plus(tz, SafeDiv(1.0, r.d.z)), tz.t)
            && Entered(r, v, w, FaceForStep(AxisStep(r.d.z), South, North), tz.t)
  {
    AxisAdvances(r.o.z, r.d.z, v.z, tz, dist);
    AxisWaits(r.o.x, r.d.x, v.x, tx, dist, tz.t);
    AxisWaits(r.o.y, r.d.y, v.y, ty, dist, tz.t);
  }

  /** On a ray with no direction the walk ends after offering the voxel it starts in. */
  lemma NeverMoves(r: Ray, v: Voxel)
    ensures ShareFace(v, v.(x := v.x + AxisStep(r.d.x)))
  {
  }

  lemma StartsHere(r: Ray)
    ensures var v := BlockPos(r.o);
            AtVoxel(r, v, SafeDiv(Boundary(r.o.x, v.x, AxisStep(r.d.x)), r.d.x),
                    SafeDiv(Boundary(r.o.y, v.y, AxisStep(r.d.y)), r.d.y),
                    SafeDiv(Boundary(r.o.z, v.z, AxisStep(r.d.z)), r.d.z), 0.0)
            && AllCrossed(r, v) == 0 && Covered(r, At(0.0), [])
  {
    AxisStart(r.o.x, r.d.x);
    AxisStart(r.o.y, r.d.y);
    AxisStart(r.o.z, r.d.z);
  }

  lemma Here(r: Ray, v: Voxel, tx: Time, ty: Time, tz: Time, dist: real)
    requires AtVoxel(r, v, tx, ty, tz, dist)
    ensures dist >= 0.0 && Touches(r, v, dist)
  {
    OnlyThisVoxel(r, v, tx, ty, tz, dist, dist);
  }

  datatype Hit = Hit(v: Voxel, face: Face, distance: real)
  datatype Option<+T> = None | Some(value: T)

  /** What the walk keeps between steps. */
  ghost predicate Inv(r: Ray, stop: Voxel -> bool, path: seq<Voxel>, v: Voxel, face: Face, dist: Time) {
    && Covered(r, dist, path) && Connected(path) && (forall w | w in path :: !stop(w))
    && (dist.At? ==> |path| == AllCrossed(r, v))
    && (if path == [] then v == BlockPos(r.o) && dist == At(0.0) && face == Top
        else path[0] == BlockPos(r.o) && ShareFace(path[|path| - 1], v)
             && (dist.At? ==> OnFace(v, face, PointAt(r, dist.t))))
  }

  lemma InvStep(r: Ray, stop: Voxel -> bool, path: seq<Voxel>, v: Voxel, face: Face, dist: Time,
                w: Voxel, face': Face, dist': Time)
    requires Inv(r, stop, path, v, face, dist) && !stop(v) && Covered(r, dist', path + [v])
    requires dist.At? && ShareFace(v, w) && (dist'.At? ==> Entered(r, v, w, face', dist'.t))
    ensures Inv(r, stop, path + [v], w, face', dist')
  {
    hide Covered, ShareFace, OnFace, PointAt, AllCrossed;
  }

  /** Walks the grid and returns the first voxel `stop` accepts. `path` is the sequence of
      voxels it was offered and rejected. */
  method Cast(r: Ray, maxDist: real, stop: Voxel -> bool) returns (hit: Option<Hit>, ghost path: seq<Voxel>)
    ensures Connected(path) && (path != [] ==> path[0] == BlockPos(r.o)) && forall w | w in path :: !stop(w)
    // First hit: nothing the ray is inside of before the hit was skipped, or accepted.
    ensures hit.Some? ==> Covered(r, At(hit.value.distance), path)
    ensures hit == None ==> forall t: real, w: Voxel :: 0.0 <= t <= maxDist && Inside(r, w, t) ==> w in path
    // What a hit is.
    ensures hit.Some? ==>
              var h := hit.value;
              && stop(h.v) && 0.0 <= h.distance <= maxDist && Touches(r, h.v, h.distance)
              && (if path == [] then h.v == BlockPos(r.o) && h.distance == 0.0 && h.face == Top
                  else ShareFace(path[|path| - 1], h.v) && OnFace(h.v, h.face, PointAt(r, h.distance)))
    // The walk's length.
    ensures path != [] ==> |path| as real <= 1.0 + StepBound(r, maxDist)
  {
    hide AtVoxel, Inside, Touches, StepBound, ShareFace, OnFace, PointAt, AllCrossed, FaceForStep, AxisStep, SafeDiv,
      Plus, Boundary;
    var start := BlockPos(r.o);
    var x, y, z := start.x, start.y, start.z;
    var stepX, stepY, stepZ := AxisStep(r.d.x), AxisStep(r.d.y), AxisStep(r.d.z);
    var tMaxX := SafeDiv(Boundary(r.o.x, x, stepX), r.d.x);
    var tMaxY := SafeDiv(Boundary(r.o.y, y, stepY), r.d.y);
    var tMaxZ := SafeDiv(Boundary(r.o.z, z, stepZ), r.d.z);
    var tDeltaX, tDeltaY, tDeltaZ := SafeDiv(1.0, r.d.x), SafeDiv(1.0, r.d.y), SafeDiv(1.0, r.d.z);
    var dist := At(0.0);
    var face := Top;
    path := [];
    StartsHere(r);
    while Leq(dist, At(maxDist))
      invariant dist.At? ==> AtVoxel(r, Voxel(x, y, z), tMaxX, tMaxY, tMaxZ, dist.t)
      invariant Inv(r, stop, path, Voxel(x, y, z), face, dist)
      invariant path != [] ==> |path| as real <= 1.0 + StepBound(r, maxDist)
      decreases StepBound(r, maxDist).Floor + 1 - |path|
    {
      ghost var v, was, oldFace, oldPath := Voxel(x, y, z), dist, face, path;
      StepsBounded(r, v, tMaxX, tMaxY, tMaxZ, dist.t, maxDist);
      Here(r, v, tMaxX, tMaxY, tMaxZ, dist.t);
      if stop(Voxel(x, y, z)) {
        return Some(Hit(Voxel(x, y, z), face, dist.t)), path;
      }
      if Leq(tMaxX, tMaxY) && Leq(tMaxX, tMaxZ) {
        CoverMore(r, v, tMaxX, tMaxY, tMaxZ, was.t, tMaxX, path);
        NeverMoves(r, v);
        if tMaxX.At? { AdvanceX(r, v, tMaxX, tMaxY, tMaxZ, was.t); }
        dist, x, tMaxX := tMaxX, x + stepX, Plus(tMaxX, tDeltaX);
        face := FaceForStep(stepX, East, West);
      } else if Leq(tMaxY, tMaxZ) {
        CoverMore(r, v, tMaxX, tMaxY, tMaxZ, was.t, tMaxY, path);
        AdvanceY(r, v, tMaxX, tMaxY, tMaxZ, was.t);
        dist, y, tMaxY := tMaxY, y + stepY, Plus(tMaxY, tDeltaY);
        face := FaceForStep(stepY, Top, Bottom);
      } else {
        CoverMore(r, v, tMaxX, tMaxY, tMaxZ, was.t, tMaxZ, path);
        AdvanceZ(r, v, tMaxX, tMaxY, tMaxZ, was.t);
        dist, z, tMaxZ := tMaxZ, z + stepZ, Plus(tMaxZ, tDeltaZ);
        face := FaceForStep(stepZ, South, North);
      }
      path := path + [v];
      InvStep(r, stop, oldPath, v, oldFace, was, Voxel(x, y, z), face, dist);
    }
    hit := None;
  }

  /** The same result from the caller's side: if the ray is inside a stopping voxel within
      range, there is a hit, and it is no farther; without one nothing in range stops it. */
  method FirstHit(r: Ray, maxDist: real, stop: Voxel -> bool) returns (hit: Option<Hit>)
    ensures forall t: real, w: Voxel :: 0.0 <= t <= maxDist && Inside(r, w, t) && stop(w) ==>
              hit.Some? && hit.value.distance <= t
    ensures hit.Some? ==> stop(hit.value.v) && Touches(r, hit.value.v, hit.value.distance)
    ensures hit.Some? ==> 0.0 <= hit.value.distance <= maxDist
    ensures hit.Some? && hit.value.v != BlockPos(r.o) ==>
              OnFace(hit.value.v, hit.value.face, PointAt(r, hit.value.distance))
  {
    ghost var path;
    hit, path := Cast(r, maxDist, stop);
  }

  // ------------------------------------------------------------------ reach (reach.go)

  function Clamp(p: real, lo: real, hi: real): real {
    var m := if p < hi then p else hi;
    if lo > m then lo else m
  }

  function Square(x: real): real { x * x }

  /** The square of the distance to the nearest point of a block's box. */
  function BlockDistanceSquared(p: Vec, v: Voxel): real {
    Square(p.x - Clamp(p.x, v.x as real, v.x as real + 1.0)) +
    Square(p.y - Clamp(p.y, v.y as real, v.y as real + 1.0)) +
    Square(p.z - Clamp(p.z, v.z as real, v.z as real + 1.0))
  }

  lemma SquareMono(a: real, b: real)
    requires -b <= a <= b
    ensures Square(a) <= Square(b)
  {
    MulMono(b - a, 0.0, b + a);
    assert (b - a) * (b + a) == b * b - a * a;
  }

  lemma SquareMonoAbs(a: real, b: real)
    requires -Abs(b) <= a <= Abs(b)
    ensures Square(a) <= Square(b)
  {
    SquareMono(a, Abs(b));
    assert Square(Abs(b)) == Square(b);
  }

  /** A point in the closed box of a block. */
  predicate InBox(q: Vec, v: Voxel) { Between(v.x, q.x) && Between(v.y, q.y) && Between(v.z, q.z) }

  function DistanceSquared(p: Vec, q: Vec): real {
    (p.x - q.x) * (p.x - q.x) + (p.y - q.y) * (p.y - q.y) + (p.z - q.z) * (p.z - q.z)
  }

  lemma SquaresSum(p: Vec, q: Vec)
    ensures DistanceSquared(p, q) == Square(p.x - q.x) + Square(p.y - q.y) + Square(p.z - q.z)
  {
  }

  lemma ClampIsNearest(p: real, v: int, q: real)
    requires Between(v, q)
    ensures Between(v, Clamp(p, v as real, v as real + 1.0))
    ensures Square(p - Clamp(p, v as real, v as real + 1.0)) <= Square(p - q)
  {
    hide Square;
    SquareMonoAbs(p - Clamp(p, v as real, v as real + 1.0), p - q);
  }

  /** It is the distance to some point of the box, and to none less. */
  lemma BlockDistanceIs(p: Vec, v: Voxel) returns (nearest: Vec)
    ensures InBox(nearest, v) && BlockDistanceSquared(p, v) == DistanceSquared(p, nearest)
    ensures forall q | InBox(q, v) :: DistanceSquared(p, nearest) <= DistanceSquared(p, q)
  {
    hide Square, Clamp, DistanceSquared;
    nearest := Vec(Clamp(p.x, v.x as real, v.x as real + 1.0), Clamp(p.y, v.y as real, v.y as real + 1.0),
                   Clamp(p.z, v.z as real, v.z as real + 1.0));
    SquaresSum(p, nearest);
    ClampIsNearest(p.x, v.x, v.x as real);
    ClampIsNearest(p.y, v.y, v.y as real);
    ClampIsNearest(p.z, v.z, v.z as real);
    forall q | InBox(q, v) ensures DistanceSquared(p, nearest) <= DistanceSquared(p, q) {
      SquaresSum(p, q);
      ClampIsNearest(p.x, v.x, q.x);
      ClampIsNearest(p.y, v.y, q.y);
      ClampIsNearest(p.z, v.z, q.z);
    }
  }

  /** On one axis the nearest point of the slab is no farther off than where the ray is. */
  lemma NearestOnAxis(o: real, d: real, v: int, t: real)
    requires Between(v, Along(o, d, t))
    ensures Square(o - Clamp(o, v as real, v as real + 1.0)) <= Square(t) * Square(d)
  {
    SquareMonoAbs(o - Clamp(o, v as real, v as real + 1.0), d * t);
    SquareProduct(d, t);
  }

  lemma SquareProduct(d: real, t: real)
    ensures Square(d * t) == Square(t) * Square(d)
  {
    assert (d * t) * (d * t) == (t * t) * (d * d);
  }

  /** The nearest point of a voxel the ray touches at distance t is at most t·|d| away. */
  lemma TouchedIsNear(r: Ray, v: Voxel, t: real)
    requires Touches(r, v, t)
    ensures BlockDistanceSquared(r.o, v) <= Square(t) * (Square(r.d.x) + Square(r.d.y) + Square(r.d.z))
  {
    hide Square, Clamp, Between, Along;
    NearestOnAxis(r.o.x, r.d.x, v.x, t);
    NearestOnAxis(r.o.y, r.d.y, v.y, t);
    NearestOnAxis(r.o.z, r.d.z, v.z, t);
    Distribute(Square(t), Square(r.d.x), Square(r.d.y), Square(r.d.z));
  }

  lemma Distribute(k: real, a: real, b: real, c: real)
    ensures k * (a + b + c) == k * a + k * b + k * c
  {
  }

  const BLOCK_REACH := 4.5

  /** Along a direction at most unit length, what is touched within reach passes the reach
      check, whose square-root form is this inequality squared. */
  lemma TouchedIsReachable(r: Ray, v: Voxel, t: real)
    requires Touches(r, v, t) && 0.0 <= t <= 4.5
    requires Square(r.d.x) + Square(r.d.y) + Square(r.d.z) <= 1.0
    ensures BlockDistanceSquared(r.o, v) <= Square(t) <= 20.25
  {
    hide Clamp, Touches, BlockDistanceSquared;
    TouchedIsNear(r, v, t);
    SquareMono(t, 4.5);
    assert Square(t) >= 0.0;
    hide Square;
    MulMono(Square(t), Square(r.d.x) + Square(r.d.y) + Square(r.d.z), 1.0);
  }

  /** What the crosshair is on: the nearest stopping block within four and a half, at the
      point and on the face where the line of sight meets it, and within reach. */
  method LookingAt(eyes: Vec, look: Vec, stop: Voxel -> bool) returns (hit: Option<Hit>)
    requires Square(look.x) + Square(look.y) + Square(look.z) <= 1.0
    ensures forall t: real, w: Voxel :: 0.0 <= t <= 4.5 && Inside(Ray(eyes, look), w, t) && stop(w) ==>
              hit.Some? && hit.value.distance <= t
    ensures hit.Some? ==> stop(hit.value.v) && 0.0 <= hit.value.distance <= 4.5
    ensures hit.Some? ==> Touches(Ray(eyes, look), hit.value.v, hit.value.distance)
    ensures hit.Some? && hit.value.v != BlockPos(eyes) ==>
              OnFace(hit.value.v, hit.value.face, PointAt(Ray(eyes, look), hit.value.distance))
    ensures hit.Some? ==> BlockDistanceSquared(eyes, hit.value.v) <= Square(hit.value.distance) <= 20.25
  {
    hide Square, Touches, BlockDistanceSquared, Inside, OnFace, PointAt, StepBound, BlockPos;
    ghost var path;
    hit, path := Cast(Ray(eyes, look), BLOCK_REACH, stop);
    if hit.Some? {
      TouchedIsReachable(Ray(eyes, look), hit.value.v, hit.value.distance);
    }
  }
}
