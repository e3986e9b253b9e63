/** The tracks of the Picking example: points that bounce around inside a box. */
module Picking {
  import opened Cycles

  const MIN_X: real := -2000.0
  const MAX_X: real := 2000.0
  const MIN_Y: real := -1000.0
  const MAX_Y: real := 1000.0
  const NUM_POINTS: nat := 600

  // ---------------------------------------------------------------- one axis

  /** A coordinate and the velocity along it. */
  datatype Axis = Axis(pos: real, vel: real)

  predicate Inside(x: real, lo: real, hi: real) {
    lo <= x <= hi
  }

  /** One step, and a turn if it led over the boundary. */
  function Move(a: Axis, lo: real, hi: real): Axis {
    var x := a.pos + a.vel;
    Axis(x, if x > hi || x < lo then -a.vel else a.vel)
  }

  function At(a: Axis, lo: real, hi: real, k: nat): Axis {
    if k == 0 then a else Move(At(a, lo, hi, k - 1), lo, hi)
  }

  // -------------------------------------------------------------- leaving the box

  /** Where `t` steps along the straight line lead. */
  function Straight(x: real, v: real, t: int): real {
    x + t as real * v
  }

  lemma StraightStep(x: real, v: real, t: int)
    ensures Straight(x, v, t + 1) == Straight(x, v, t) + v
    ensures Straight(x, -v, -t) == Straight(x, v, t)
  {
  }

  function Abs(r: real): real {
    if r < 0.0 then -r else r
  }

  /** More steps than fit into the box. */
  function Enough(v: real, lo: real, hi: real): (n: nat)
    requires v != 0.0 && lo <= hi
    ensures n as real * Abs(v) > hi - lo
  {
    var speed := Abs(v);
    assert speed > 0.0;
    var n := ((hi - lo) / speed).Floor + 1;
    NonNegative(hi - lo, speed);
    Larger(n as real, hi - lo, speed);
    n
  }

  lemma NonNegative(a: real, b: real)
    requires a >= 0.0 && b > 0.0
    ensures a / b >= 0.0
  {
  }

  lemma Larger(n: real, a: real, b: real)
    requires b > 0.0 && n > a / b
    ensures n * b > a
  {
    assert (n - a / b) * b == n * b - a;
  }

  lemma EnoughLeaves(x: real, v: real, lo: real, hi: real)
    requires v != 0.0 && Inside(x, lo, hi)
    ensures !Inside(Straight(x, v, Enough(v, lo, hi)), lo, hi)
  {
    var n := Enough(v, lo, hi) as real;
    if v < 0.0 {
      assert n * -v == -(n * v);
    }
  }

  /** The first step count from `h` on that leads out of the box. */
  function ExitFrom(x: real, v: real, lo: real, hi: real, h: nat): (r: nat)
    requires v != 0.0 && Inside(x, lo, hi) && h <= Enough(v, lo, hi)
    ensures h <= r && !Inside(Straight(x, v, r), lo, hi)
    ensures forall t :: h <= t < r ==> Inside(Straight(x, v, t), lo, hi)
    decreases Enough(v, lo, hi) - h
  {
    EnoughLeaves(x, v, lo, hi);
    if Inside(Straight(x, v, h), lo, hi) then ExitFrom(x, v, lo, hi, h + 1) else h
  }

  /** After how many steps the straight line first leaves the box. */
  function FirstExit(x: real, v: real, lo: real, hi: real): (h: nat)
    requires v != 0.0 && Inside(x, lo, hi)
    ensures h >= 1 && !Inside(Straight(x, v, h), lo, hi)
    ensures forall t :: 0 <= t < h ==> Inside(Straight(x, v, t), lo, hi)
  {
    assert Straight(x, v, 0) == x;
    ExitFrom(x, v, lo, hi, 0)
  }

  // -------------------------------------------------------------- triangle wave

  /** The wave that rises from 0 to `h`, falls to `-l` and returns to 0; its period is 2 (h + l). */
  function Tri(k: nat, h: nat, l: nat): int
    requires h >= 1 && l >= 1
  {
    var r: nat := k % (2 * (h + l));
    if r < h then r else if r < 2 * h + l then 2 * h - r else r - 2 * (h + l)
  }

  predicate Rising(k: nat, h: nat, l: nat)
    requires h >= 1 && l >= 1
  {
    var r: nat := k % (2 * (h + l));
    r < h || r >= 2 * h + l
  }

  lemma TriStep(k: nat, h: nat, l: nat)
    requires h >= 1 && l >= 1
    ensures 0 - l <= Tri(k, h, l) <= h
    ensures Tri(k + 1, h, l) == Tri(k, h, l) + if Rising(k, h, l) then 1 else -1
    ensures Tri(k + 1, h, l) == h || Tri(k + 1, h, l) == 0 - l <==> Rising(k + 1, h, l) != Rising(k, h, l)
  {
    NextPhase(k, 2 * (h + l));
  }

  /** The positions of the straight line between the two exits are the ones inside the box. */
  lemma Between(x: real, v: real, lo: real, hi: real, t: int)
    requires v != 0.0 && Inside(x, lo, hi)
    requires 0 - FirstExit(x, -v, lo, hi) <= t <= FirstExit(x, v, lo, hi)
    ensures Inside(Straight(x, v, t), lo, hi) <==> 0 - FirstExit(x, -v, lo, hi) < t < FirstExit(x, v, lo, hi)
  {
    StraightStep(x, v, t);
    if t < 0 {
      assert Straight(x, -v, -t) == Straight(x, v, t);
    }
  }

  /**
    From a start inside the box, with any velocity but 0, the coordinate is a triangle wave: x + v * Tri(k), where
    the turning points are where the straight lines ahead and back first leave the box.  The period is twice the sum.
   */
  lemma {:induction false} TriangleWave(x: real, v: real, lo: real, hi: real, k: nat)
    requires v != 0.0 && Inside(x, lo, hi)
    ensures var h, l := FirstExit(x, v, lo, hi), FirstExit(x, -v, lo, hi);
            At(Axis(x, v), lo, hi, k) == Axis(Straight(x, v, Tri(k, h, l)), if Rising(k, h, l) then v else -v)
  {
    var h, l := FirstExit(x, v, lo, hi), FirstExit(x, -v, lo, hi);
    if k == 0 {
      assert Straight(x, v, 0) == x;
    } else {
      var t := Tri(k - 1, h, l);
      TriangleWave(x, v, lo, hi, k - 1);
      TriStep(k - 1, h, l);
      TriStep(k, h, l);
      StraightStep(x, v, t);
      StraightStep(x, v, t - 1);
      Between(x, v, lo, hi, Tri(k, h, l));
    }
  }

  lemma {:induction false} AtRest(x: real, lo: real, hi: real, k: nat)
    requires Inside(x, lo, hi)
    ensures At(Axis(x, 0.0), lo, hi, k) == Axis(x, 0.0)
  {
    if k > 0 {
      AtRest(x, lo, hi, k - 1);
    }
  }

  /** The coordinate repeats after 2 (h + l) steps. */
  lemma Periodic(x: real, v: real, lo: real, hi: real, k: nat)
    requires v != 0.0 && Inside(x, lo, hi)
    ensures var h, l := FirstExit(x, v, lo, hi), FirstExit(x, -v, lo, hi);
            At(Axis(x, v), lo, hi, k + 2 * (h + l)) == At(Axis(x, v), lo, hi, k)
  {
    var h, l := FirstExit(x, v, lo, hi), FirstExit(x, -v, lo, hi);
    TriangleWave(x, v, lo, hi, k);
    TriangleWave(x, v, lo, hi, k + 2 * (h + l));
    ModOf(1, 0, 2 * (h + l));
    AddPeriods(k, 2 * (h + l), 2 * (h + l));
  }

  /**
    The speed never changes, no point is farther outside than one step, and one outside lies between two visits to
    the same point inside.
   */
  lemma NeverFarOutside(x: real, v: real, lo: real, hi: real, k: nat)
    requires Inside(x, lo, hi)
    ensures var a := At(Axis(x, v), lo, hi, k);
            && Abs(a.vel) == Abs(v)
            && lo - Abs(v) <= a.pos <= hi + Abs(v)
            && (!Inside(a.pos, lo, hi) ==>
                  && k >= 1 && At(Axis(x, v), lo, hi, k - 1).pos == At(Axis(x, v), lo, hi, k + 1).pos
                  && Inside(At(Axis(x, v), lo, hi, k + 1).pos, lo, hi))
  {
    if v == 0.0 {
      AtRest(x, lo, hi, k);
    } else {
      TriangleWave(x, v, lo, hi, k);
      var h, l := FirstExit(x, v, lo, hi), FirstExit(x, -v, lo, hi);
      var t := Tri(k, h, l);
      if k > 0 {
        OneStepOut(x, v, lo, hi, k);
      }
    }
  }

  lemma OneStepOut(x: real, v: real, lo: real, hi: real, k: nat)
    requires v != 0.0 && Inside(x, lo, hi) && k > 0
    ensures var a, b := At(Axis(x, v), lo, hi, k), At(Axis(x, v), lo, hi, k - 1);
            && Abs(b.vel) == Abs(v) && a.pos == b.pos + b.vel
            && (Inside(a.pos, lo, hi) || Inside(b.pos, lo, hi))
  {
    var h, l := FirstExit(x, v, lo, hi), FirstExit(x, -v, lo, hi);
    TriangleWave(x, v, lo, hi, k);
    TriangleWave(x, v, lo, hi, k - 1);
    TriStep(k - 1, h, l);
    TriStep(k, h, l);
    Between(x, v, lo, hi, Tri(k, h, l));
    Between(x, v, lo, hi, Tri(k - 1, h, l));
  }

  // ------------------------------------------------------------------ the loop

  datatype Update = Update(time: nat, x: real, y: real, vx: real, vy: real, heading: real)

  datatype Start = Start(x: Axis, y: Axis, angle: real)

  /** The `k`-th position and velocity on an axis are on the triangle wave that starts at `a`. */
  predicate OnWave(a: Axis, lo: real, hi: real, k: nat, pos: real, vel: real) {
    Inside(a.pos, lo, hi) ==>
      if a.vel == 0.0 then pos == a.pos && vel == 0.0
      else
        var h, l := FirstExit(a.pos, a.vel, lo, hi), FirstExit(a.pos, -a.vel, lo, hi);
        pos == Straight(a.pos, a.vel, Tri(k, h, l)) && vel == if Rising(k, h, l) then a.vel else -a.vel
  }

  lemma AtIsOnWave(a: Axis, lo: real, hi: real, k: nat)
    ensures OnWave(a, lo, hi, k, At(a, lo, hi, k).pos, At(a, lo, hi, k).vel)
  {
    if Inside(a.pos, lo, hi) {
      if a.vel == 0.0 {
        AtRest(a.pos, lo, hi, k);
      } else {
        assert a == Axis(a.pos, a.vel);
        TriangleWave(a.pos, a.vel, lo, hi, k);
      }
    }
  }

  predicate FollowsAxes(start: Start, u: Update, k: nat) {
    && u.time == k
    && Axis(u.x, u.vx) == At(start.x, MIN_X, MAX_X, k)
    && Axis(u.y, u.vy) == At(start.y, MIN_Y, MAX_Y, k)
  }

  /**
    Adds the points of one track from a random start; `yaw` is the heading of a velocity.  From a start inside the box
    each coordinate is on its own triangle wave, and every point but the first is headed as it moves.
   */
  method AddDataPoints(start: Start, yaw: (real, real) -> real) returns (updates: seq<Update>)
    ensures |updates| == 600
    ensures forall k :: 0 <= k < 600 ==> FollowsAxes(start, updates[k], k)
    ensures forall k :: 0 <= k < 600 ==> OnWave(start.x, -2000.0, 2000.0, k, updates[k].x, updates[k].vx)
    ensures forall k :: 0 <= k < 600 ==> OnWave(start.y, -1000.0, 1000.0, k, updates[k].y, updates[k].vy)
    ensures updates[0].heading == start.angle
    ensures forall k :: 1 <= k < 600 ==> updates[k].heading == yaw(updates[k].vx, updates[k].vy)
  {
    var x, y, angle := start.x.pos, start.y.pos, start.angle;
    var vx, vy := start.x.vel, start.y.vel;
    updates := [];
    for k := 0 to NUM_POINTS
      invariant |updates| == k
      invariant Axis(x, vx) == At(start.x, MIN_X, MAX_X, k) && Axis(y, vy) == At(start.y, MIN_Y, MAX_Y, k)
      invariant angle == if k == 0 then start.angle else yaw(vx, vy)
      invariant forall j :: 0 <= j < k ==> FollowsAxes(start, updates[j], j)
      invariant k > 0 ==> updates[0].heading == start.angle
      invariant forall j :: 1 <= j < k ==> updates[j].heading == yaw(updates[j].vx, updates[j].vy)
    {
      updates := updates + [Update(k, x, y, vx, vy, angle)];
      x := x + vx;
      y := y + vy;
      if x > MAX_X || x < MIN_X {
        vx := -vx;
      }
      if y > MAX_Y || y < MIN_Y {
        vy := -vy;
      }
      angle := yaw(vx, vy);
    }
    forall k | 0 <= k < 600
      ensures OnWave(start.x, -2000.0, 2000.0, k, updates[k].x, updates[k].vx)
      ensures OnWave(start.y, -1000.0, 1000.0, k, updates[k].y, updates[k].vy)
    {
      assert FollowsAxes(start, updates[k], k);
      AtIsOnWave(start.x, MIN_X, MAX_X, k);
      AtIsOnWave(start.y, MIN_Y, MAX_Y, k);
    }
  }

  /** Every point of a track is within one step of the box, each coordinate on its own, at unchanged speeds. */
  lemma TrackStaysNear(start: Start, u: Update, k: nat)
    requires FollowsAxes(start, u, k)
    requires Inside(start.x.pos, MIN_X, MAX_X) && Inside(start.y.pos, MIN_Y, MAX_Y)
    ensures -2000.0 - Abs(start.x.vel) <= u.x <= 2000.0 + Abs(start.x.vel)
    ensures -1000.0 - Abs(start.y.vel) <= u.y <= 1000.0 + Abs(start.y.vel)
    ensures Abs(u.vx) == Abs(start.x.vel) && Abs(u.vy) == Abs(start.y.vel)
  {
    NeverFarOutside(start.x.pos, start.x.vel, MIN_X, MAX_X, k);
    NeverFarOutside(start.y.pos, start.y.vel, MIN_Y, MAX_Y, k);
  }
}
