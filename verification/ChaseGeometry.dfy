/** What one turn and one tick of the chase do to positions, over exact reals. */
module ChaseGeometry {
  import opened Common
  import opened Game
  import opened Chase

  /** `root` is the square root on the non-negative reals. */
  ghost predicate IsRoot(root: real -> real) {
    forall v :: v >= 0.0 ==> root(v) >= 0.0 && root(v) * root(v) == v
  }

  // ---------------------------------------------------------------- arithmetic

  lemma LengthSquaredNonNegative(dx: real, dy: real)
    ensures LengthSquared(dx, dy) >= 0.0
  {
  }

  lemma PositiveProduct(a: real, b: real)
    requires a > 0.0 && b > 0.0
    ensures a * b > 0.0
  {
  }

  lemma SquareOrder(a: real, b: real)
    requires a >= 0.0 && b >= 0.0
    ensures a * a <= b * b <==> a <= b
  {
    assert b * b - a * a == (b - a) * (b + a);
    if a > b {
      PositiveProduct(a - b, b + a);
      assert (b - a) * (b + a) == -((a - b) * (b + a));
    }
  }

  lemma RootIs(root: real -> real, d: real, v: real)
    requires IsRoot(root) && d >= 0.0 && d * d == v
    ensures root(v) == d
  {
    assert v >= 0.0;
    SquareOrder(root(v), d);
    SquareOrder(d, root(v));
  }

  lemma RootOrder(root: real -> real, u: real, v: real)
    requires IsRoot(root) && u >= 0.0 && v >= 0.0
    ensures root(u) <= root(v) <==> u <= v
  {
    SquareOrder(root(u), root(v));
  }

  lemma Divided(a: real, d: real)
    requires d > 0.0
    ensures a / d * d == a
  {
  }

  lemma ScaledQuotient(a: real, d: real, r: real)
    requires d > 0.0
    ensures a / d * r == a * (r / d)
  {
    var q, e := a / d, r / d;
    Divided(a, d);
    Divided(r, d);
    assert q * (e * d) == (q * d) * e;
  }

  /** A vector of length `d`, normalised and scaled by `r`, has length |r|. */
  lemma ScaledLength(dx: real, dy: real, d: real, r: real)
    requires d > 0.0 && LengthSquared(dx, dy) == d * d
    ensures LengthSquared(dx / d * r, dy / d * r) == r * r
  {
    var e := r / d;
    ScaledQuotient(dx, d, r);
    ScaledQuotient(dy, d, r);
    Divided(r, d);
    assert LengthSquared(dx * e, dy * e) == LengthSquared(dx, dy) * (e * e);
    assert (d * d) * (e * e) == (e * d) * (e * d);
  }

  /** Going `step` of the `dist` along a vector covers `step` and leaves `dist - step`. */
  lemma StepLengths(dx: real, dy: real, step: real, dist: real)
    requires dist > 0.0 && LengthSquared(dx, dy) == dist * dist
    ensures LengthSquared(dx / dist * step, dy / dist * step) == step * step
    ensures LengthSquared(dx - dx / dist * step, dy - dy / dist * step) == (dist - step) * (dist - step)
  {
    ScaledLength(dx, dy, dist, step);
    ScaledLength(dx, dy, dist, dist - step);
    RestOfStep(dx, step, dist);
    RestOfStep(dy, step, dist);
  }

  lemma RestOfStep(a: real, step: real, dist: real)
    requires dist > 0.0
    ensures a - a / dist * step == a / dist * (dist - step)
  {
    Divided(a, dist);
  }

  /** A step that does not overshoot stays between the two coordinates. */
  lemma AdvanceBetween(from: real, to: real, step: real, dist: real)
    requires 0.0 <= step <= dist && dist > 0.0
    ensures var r := Advance(from, to - from, step, dist);
            if from <= to then from <= r <= to else to <= r <= from
  {
    var t := step / dist;
    Divided(step, dist);
    assert 0.0 <= t <= 1.0;
    var d := to - from;
    Divided(d, dist);
    assert d / dist * step == d * t by {
      assert d / dist * (dist * t) == d / dist * dist * t;
    }
    if d >= 0.0 {
      assert 0.0 <= d * t <= d;
    } else {
      assert d <= d * t <= 0.0;
    }
  }

  /** The product of two lengths bounds the inner product. */
  lemma InnerProductBound(ux: real, uy: real, vx: real, vy: real, p: real, q: real)
    requires p >= 0.0 && q >= 0.0 && p * p == LengthSquared(ux, uy) && q * q == LengthSquared(vx, vy)
    ensures ux * vx + uy * vy <= p * q
  {
    var inner, cross := ux * vx + uy * vy, ux * vy - uy * vx;
    assert LengthSquared(ux, uy) * LengthSquared(vx, vy) == inner * inner + cross * cross;
    assert (p * q) * (p * q) == (p * p) * (q * q);
    assert inner * inner <= (p * q) * (p * q);
    assert p * q >= 0.0;
    if inner > 0.0 {
      SquareOrder(inner, p * q);
    }
  }

  lemma Triangle(root: real -> real, ux: real, uy: real, vx: real, vy: real)
    requires IsRoot(root)
    ensures root(LengthSquared(ux + vx, uy + vy)) <= root(LengthSquared(ux, uy)) + root(LengthSquared(vx, vy))
  {
    LengthSquaredNonNegative(ux, uy);
    LengthSquaredNonNegative(vx, vy);
    LengthSquaredNonNegative(ux + vx, uy + vy);
    var p, q := root(LengthSquared(ux, uy)), root(LengthSquared(vx, vy));
    InnerProductBound(ux, uy, vx, vy, p, q);
    assert LengthSquared(ux + vx, uy + vy) == p * p + q * q + 2.0 * (ux * vx + uy * vy);
    assert (p + q) * (p + q) == p * p + q * q + 2.0 * (p * q);
    SquareOrder(root(LengthSquared(ux + vx, uy + vy)), p + q);
  }

  // ---------------------------------------------------------------- one turn

  /** The part of a turn that holds whatever `root` is: only the two players involved change,
      the hunter in its position only, the prey only by being captured. */
  lemma TurnShape(ps: seq<Player>, i: nat, step: real, root: real -> real)
    requires i < |ps| && step >= 0.0
    ensures var r := Act(ps, i, step, root);
            var prey := NearestPrey(ps, i, root);
            && (prey == NOBODY ==> r == ps)
            && (forall k :: 0 <= k < |ps| && k != i && k != prey ==> r[k] == ps[k])
            && (prey != NOBODY ==>
                  && r[i] == ps[i].(x := r[i].x, y := r[i].y)
                  && (r[prey] == ps[prey] || r[prey] == Captured(ps[prey])))
    ensures InBoxWhileAlive(ps) ==> InBoxWhileAlive(Act(ps, i, step, root))
  {
    var prey := NearestPrey(ps, i, root);
    if prey != NOBODY {
      var dist := Distance(ps, i, prey, root);
      if dist > CAPTURE_RADIUS {
        var move := if step > dist then dist else step;
        AdvanceBetween(ps[i].x, ps[prey].x, move, dist);
        AdvanceBetween(ps[i].y, ps[prey].y, move, dist);
      }
    }
  }

  ghost predicate InBoxWhileAlive(ps: seq<Player>) {
    forall k :: 0 <= k < |ps| && IsAlive(ps[k]) ==> InBox(ps[k].x, ps[k].y)
  }

  /** The prey a player runs after is nearest by squared distance, the first of those equally near. */
  lemma NearestBySquares(ps: seq<Player>, hunter: nat, root: real -> real)
    requires hunter < |ps| && IsRoot(root) && IsAlive(ps[hunter])
    ensures var prey := NearestPrey(ps, hunter, root);
            forall k :: 0 <= k < |ps| && IsEdible(ps, hunter, k) ==>
              && prey != NOBODY
              && if k < prey then Squared(ps, hunter, prey) < Squared(ps, hunter, k)
                 else Squared(ps, hunter, prey) <= Squared(ps, hunter, k)
  {
    var prey := NearestPrey(ps, hunter, root);
    NearestAmongIsNearest(ps, hunter, |ps|, root);
    hide NearestPrey, LengthSquared;
    forall k | 0 <= k < |ps| && IsEdible(ps, hunter, k)
      ensures prey != NOBODY
      ensures if k < prey then Squared(ps, hunter, prey) < Squared(ps, hunter, k)
              else Squared(ps, hunter, prey) <= Squared(ps, hunter, k)
    {
      SquaredNonNegative(ps, hunter, prey);
      SquaredNonNegative(ps, hunter, k);
      RootOrder(root, Squared(ps, hunter, k), Squared(ps, hunter, prey));
      RootOrder(root, Squared(ps, hunter, prey), Squared(ps, hunter, k));
    }
  }

  lemma SquaredNonNegative(ps: seq<Player>, a: nat, b: nat)
    requires a < |ps| && b < |ps|
    ensures Squared(ps, a, b) >= 0.0
  {
    LengthSquaredNonNegative(ps[b].x - ps[a].x, ps[b].y - ps[a].y);
  }

  function Displacement(p: Player, q: Player, root: real -> real): real {
    root(LengthSquared(q.x - p.x, q.y - p.y))
  }

  /** The two capture tests of a turn, before and after the move, amount to one rule on the
      distance that the step leaves; a hunter that captures nothing comes nearer by a whole step. */
  lemma CaptureRule(ps: seq<Player>, i: nat, step: real, root: real -> real)
    requires i < |ps| && step >= 0.0 && IsRoot(root) && NearestPrey(ps, i, root) != NOBODY
    ensures var r := Act(ps, i, step, root);
            var prey := NearestPrey(ps, i, root);
            var dist := Distance(ps, i, prey, root);
            var left := if dist - step > 0.0 then dist - step else 0.0;
            && (!IsAlive(r[prey]) <==> left <= CAPTURE_RADIUS)
            && (IsAlive(r[prey]) ==> Distance(r, i, prey, root) == left == dist - step)
            && Displacement(ps[i], r[i], root) <= step
  {
    var prey := NearestPrey(ps, i, root);
    var dx, dy := ps[prey].x - ps[i].x, ps[prey].y - ps[i].y;
    var dist := Distance(ps, i, prey, root);
    if dist <= CAPTURE_RADIUS {
      RootIs(root, 0.0, LengthSquared(ps[i].x - ps[i].x, ps[i].y - ps[i].y));
    } else {
      var move := if step > dist then dist else step;
      LengthSquaredNonNegative(dx, dy);
      assert dist * dist == LengthSquared(dx, dy);
      MoveCovers(ps, i, prey, move, dist, root);
      hide IsRoot, LengthSquared, NearestPrey, Moved;
      var moved := ps[i := Moved(ps[i], ps[prey], move, dist)];
      assert Distance(moved, i, prey, root) == dist - move;
      assert Act(ps, i, step, root) == if dist - move <= CAPTURE_RADIUS then moved[prey := Captured(moved[prey])] else moved;
    }
  }

  /** A move of `move` towards the prey, `dist` away, covers that length and leaves the rest. */
  lemma MoveCovers(ps: seq<Player>, i: nat, prey: nat, move: real, dist: real, root: real -> real)
    requires i < |ps| && prey < |ps| && i != prey && IsRoot(root) && 0.0 <= move <= dist && dist > 0.0
    requires Squared(ps, i, prey) == dist * dist
    ensures var moved := ps[i := Moved(ps[i], ps[prey], move, dist)];
            && Displacement(ps[i], moved[i], root) == move
            && Distance(moved, i, prey, root) == dist - move
  {
    var dx, dy := ps[prey].x - ps[i].x, ps[prey].y - ps[i].y;
    var vx, vy := dx / dist * move, dy / dist * move;
    StepLengths(dx, dy, move, dist);
    hide LengthSquared;
    var moved := ps[i := Moved(ps[i], ps[prey], move, dist)];
    assert moved[i].x == ps[i].x + vx && moved[i].y == ps[i].y + vy;
    SameDifference(ps[i].x, vx, ps[prey].x);
    SameDifference(ps[i].y, vy, ps[prey].y);
    RootIs(root, move, LengthSquared(vx, vy));
    RootIs(root, dist - move, LengthSquared(dx - vx, dy - vy));
  }

  lemma SameDifference(a: real, v: real, b: real)
    ensures (a + v) - a == v && b - (a + v) == (b - a) - v
  {
  }

  // ---------------------------------------------------------------- one tick

  /** What a tick can make of a player. */
  ghost predicate Chased(p: Player, q: Player) {
    || q == p
    || (IsAlive(p) && IsAlive(q) && q == p.(x := q.x, y := q.y))
    || (IsAlive(p) && q == Captured(p))
  }

  lemma TurnKeepsSomebody(ps: seq<Player>, i: nat, step: real, root: real -> real)
    requires i < |ps| && step >= 0.0 && SomebodyAlive(ps)
    ensures SomebodyAlive(Act(ps, i, step, root))
  {
    TurnShape(ps, i, step, root);
    if NearestPrey(ps, i, root) != NOBODY {
      assert IsAlive(Act(ps, i, step, root)[i]);
    }
  }

  lemma TurnChased(p: Player, ps: seq<Player>, i: nat, k: nat, step: real, root: real -> real)
    requires i < |ps| && k < |ps| && step >= 0.0 && Chased(p, ps[k])
    ensures Chased(p, Act(ps, i, step, root)[k])
  {
    TurnShape(ps, i, step, root);
  }

  lemma {:induction false} TickUpToShape(ps: seq<Player>, n: nat, step: real, root: real -> real)
    requires n <= |ps| && step >= 0.0
    ensures var r := TickUpTo(ps, n, step, root);
            && (forall k :: 0 <= k < |ps| ==> Chased(ps[k], r[k]))
            && (InBoxWhileAlive(ps) ==> InBoxWhileAlive(r))
            && (SomebodyAlive(ps) ==> SomebodyAlive(r))
  {
    hide Act;
    if n > 0 {
      TickUpToShape(ps, n - 1, step, root);
      var m := TickUpTo(ps, n - 1, step, root);
      forall k | 0 <= k < |ps|
        ensures Chased(ps[k], TickUpTo(ps, n, step, root)[k])
      {
        TurnChased(ps[k], m, n - 1, k, step, root);
      }
      TurnShape(m, n - 1, step, root);
      if SomebodyAlive(m) {
        TurnKeepsSomebody(m, n - 1, step, root);
      }
    }
  }

  ghost predicate SomebodyAlive(ps: seq<Player>) {
    exists k :: 0 <= k < |ps| && IsAlive(ps[k])
  }

  /** A tick moves or captures living players and does nothing else. The living stay in the
      box, the captured lie at (-1, -1), nobody revives, and somebody always survives. */
  lemma TickShape(ps: seq<Player>, dt: real, root: real -> real)
    ensures var r := Tick(ps, dt, root);
            && (forall k :: 0 <= k < |ps| ==> Chased(ps[k], r[k]))
            && (InBoxWhileAlive(ps) ==> InBoxWhileAlive(r))
            && (SomebodyAlive(ps) ==> SomebodyAlive(r))
  {
    TickUpToShape(ps, |ps|, StepLength(dt), root);
  }

  lemma SomebodyHasType(ps: seq<Player>)
    requires forall k :: 0 <= k < |ps| && IsAlive(ps[k]) ==> IsRps(ps[k].choice)
    ensures TypesAlive(ps) == 0 <==> !SomebodyAlive(ps)
  {
    if k :| 0 <= k < |ps| && IsAlive(ps[k]) {
      assert HasType(ps, ps[k].choice);
    }
  }

  /** A tick reports the end of the match without any type left only if nobody lived before it. */
  lemma NoTypeLeftIff(ps: seq<Player>, dt: real, root: real -> real)
    requires forall k :: 0 <= k < |ps| && IsAlive(ps[k]) ==> IsRps(ps[k].choice)
    ensures TypesAlive(Tick(ps, dt, root)) == 0 <==> !SomebodyAlive(ps)
  {
    TickShape(ps, dt, root);
    var r := Tick(ps, dt, root);
    hide Tick, TypesAlive;
    assert forall k :: 0 <= k < |ps| ==> Chased(ps[k], r[k]);
    SomebodyHasType(r);
  }

  function Ticks(ps: seq<Player>, n: nat, dt: real, root: real -> real): (r: seq<Player>)
    ensures |r| == |ps|
  {
    if n == 0 then ps else Tick(Ticks(ps, n - 1, dt, root), dt, root)
  }

  /** The same over any number of ticks: positions stay in the convex box. */
  lemma {:induction false} TicksStayInBox(ps: seq<Player>, n: nat, dt: real, root: real -> real)
    requires InBoxWhileAlive(ps)
    ensures var r := Ticks(ps, n, dt, root);
            && InBoxWhileAlive(r)
            && (forall k :: 0 <= k < |ps| ==> Chased(ps[k], r[k]))
            && (SomebodyAlive(ps) ==> SomebodyAlive(r))
  {
    hide Tick;
    if n > 0 {
      TicksStayInBox(ps, n - 1, dt, root);
      var m := Ticks(ps, n - 1, dt, root);
      TickShape(m, dt, root);
      forall k | 0 <= k < |ps|
        ensures Chased(ps[k], Tick(m, dt, root)[k])
      {
        assert Chased(ps[k], m[k]);
      }
    }
  }

  /** Outside its own turn a slot changes only by being captured. */
  lemma {:induction false} SlotRests(ps: seq<Player>, a: nat, b: nat, k: nat, step: real, root: real -> real)
    requires a <= b <= |ps| && k < |ps| && !(a <= k < b) && step >= 0.0
    ensures var before, after := TickUpTo(ps, a, step, root)[k], TickUpTo(ps, b, step, root)[k];
            after == before || (IsAlive(before) && after == Captured(before))
    decreases b - a
  {
    hide Act;
    if a < b {
      SlotRests(ps, a, b - 1, k, step, root);
      TurnShape(TickUpTo(ps, b - 1, step, root), b - 1, step, root);
    }
  }

  lemma DistanceChanges(ps: seq<Player>, qs: seq<Player>, a: nat, b: nat, root: real -> real)
    requires a < |ps| == |qs| && b < |ps| && IsRoot(root) && qs[a] == ps[a]
    ensures Distance(qs, a, b, root) <= Distance(ps, a, b, root) + Displacement(ps[b], qs[b], root)
    ensures Distance(qs, b, a, root) == Distance(qs, a, b, root)
  {
    Triangle(root, ps[b].x - ps[a].x, ps[b].y - ps[a].y, qs[b].x - ps[b].x, qs[b].y - ps[b].y);
    assert Squared(qs, b, a) == Squared(qs, a, b);
  }

  /** The hunter's turn takes the table from `m` to `m'`; before it only the prey may have moved
      since `ps`, after it only the prey may move until `r`, and not both. */
  ghost predicate MovesOnce(ps: seq<Player>, m: seq<Player>, m': seq<Player>, r: seq<Player>,
                            hunter: nat, prey: nat, step: real, root: real -> real)
    requires hunter < |ps| == |m| == |m'| == |r| && prey < |ps|
  {
    && m[hunter] == ps[hunter] && r[hunter] == m'[hunter]
    && IsAlive(m'[prey])
    && ((r[prey] == m'[prey] && Displacement(ps[prey], m[prey], root) <= step)
        || (m[prey] == ps[prey] && Displacement(m'[prey], r[prey], root) <= step))
  }

  lemma GroundKept(ps: seq<Player>, m: seq<Player>, m': seq<Player>, r: seq<Player>,
                   hunter: nat, prey: nat, step: real, root: real -> real)
    requires hunter < |ps| == |m| == |m'| == |r| && step >= 0.0 && IsRoot(root)
    requires NearestPrey(m, hunter, root) == prey && m' == Act(m, hunter, step, root)
    requires MovesOnce(ps, m, m', r, hunter, prey, step, root)
    ensures Distance(r, hunter, prey, root) <= Distance(ps, hunter, prey, root)
  {
    CaptureRule(m, hunter, step, root);
    if r[prey] == m'[prey] && Displacement(ps[prey], m[prey], root) <= step {
      DistanceChanges(ps, m, hunter, prey, root);
    } else {
      DistanceChanges(m', r, hunter, prey, root);
    }
  }

  /** A pursuit never loses ground: if a player and the prey it chose at its turn both survive
      the tick, they end it no farther apart than they began it, whichever moved first. */
  lemma PursuitNeverLosesGround(ps: seq<Player>, hunter: nat, dt: real, root: real -> real)
    requires hunter < |ps| && IsRoot(root)
    ensures var prey := NearestPrey(TickUpTo(ps, hunter, StepLength(dt), root), hunter, root);
            var r := Tick(ps, dt, root);
            prey != NOBODY && IsAlive(r[hunter]) && IsAlive(r[prey]) ==>
              Distance(r, hunter, prey, root) <= Distance(ps, hunter, prey, root)
  {
    var step := StepLength(dt);
    var m := TickUpTo(ps, hunter, step, root);
    var prey := NearestPrey(m, hunter, root);
    var r := TickUpTo(ps, |ps|, step, root);
    if prey != NOBODY && IsAlive(r[hunter]) && IsAlive(r[prey]) {
      var m' := TickUpTo(ps, hunter + 1, step, root);
      HunterRests(ps, hunter, step, root);
      if prey < hunter {
        PreyMovesBefore(ps, hunter, prey, step, root);
      } else {
        PreyMovesAfter(ps, hunter, prey, step, root);
      }
      GroundKept(ps, m, m', r, hunter, prey, step, root);
    }
  }

  lemma HunterRests(ps: seq<Player>, hunter: nat, step: real, root: real -> real)
    requires hunter < |ps| && step >= 0.0
    requires IsAlive(TickUpTo(ps, hunter, step, root)[hunter]) && IsAlive(TickUpTo(ps, |ps|, step, root)[hunter])
    ensures TickUpTo(ps, hunter, step, root)[hunter] == TickUpTo(ps, 0, step, root)[hunter]
    ensures TickUpTo(ps, |ps|, step, root)[hunter] == TickUpTo(ps, hunter + 1, step, root)[hunter]
  {
    hide Act, TickUpTo;
    SlotRests(ps, 0, hunter, hunter, step, root);
    SlotRests(ps, hunter + 1, |ps|, hunter, step, root);
  }

  /** A prey with a lower slot has moved by at most a step before the hunter's turn, and then rests. */
  lemma PreyMovesBefore(ps: seq<Player>, hunter: nat, prey: nat, step: real, root: real -> real)
    requires prey < hunter < |ps| && step >= 0.0 && IsRoot(root)
    requires IsAlive(TickUpTo(ps, hunter, step, root)[prey]) && IsAlive(TickUpTo(ps, |ps|, step, root)[prey])
    ensures Displacement(TickUpTo(ps, 0, step, root)[prey], TickUpTo(ps, hunter, step, root)[prey], root) <= step
    ensures TickUpTo(ps, |ps|, step, root)[prey] == TickUpTo(ps, hunter + 1, step, root)[prey]
  {
    hide Act, TickUpTo;
    SlotRests(ps, 0, prey, prey, step, root);
    SlotRests(ps, prey + 1, hunter, prey, step, root);
    SlotRests(ps, hunter + 1, |ps|, prey, step, root);
    OwnTurn(ps, prey, step, root);
  }

  /** A prey with a higher slot is where it was, and moves by at most a step after that turn. */
  lemma PreyMovesAfter(ps: seq<Player>, hunter: nat, prey: nat, step: real, root: real -> real)
    requires hunter < prey < |ps| && step >= 0.0 && IsRoot(root)
    requires IsAlive(TickUpTo(ps, hunter, step, root)[prey]) && IsAlive(TickUpTo(ps, |ps|, step, root)[prey])
    ensures TickUpTo(ps, hunter, step, root)[prey] == TickUpTo(ps, 0, step, root)[prey]
    ensures IsAlive(TickUpTo(ps, hunter + 1, step, root)[prey])
    ensures Displacement(TickUpTo(ps, hunter + 1, step, root)[prey], TickUpTo(ps, |ps|, step, root)[prey], root) <= step
  {
    hide Act, TickUpTo;
    SlotRests(ps, 0, hunter, prey, step, root);
    SlotRests(ps, hunter + 1, prey, prey, step, root);
    SlotRests(ps, prey + 1, |ps|, prey, step, root);
    OwnTurn(ps, prey, step, root);
  }

  lemma OwnTurn(ps: seq<Player>, i: nat, step: real, root: real -> real)
    requires i < |ps| && step >= 0.0 && IsRoot(root)
    ensures Displacement(TickUpTo(ps, i, step, root)[i], TickUpTo(ps, i + 1, step, root)[i], root) <= step
    ensures IsAlive(TickUpTo(ps, i + 1, step, root)[i]) ==> IsAlive(TickUpTo(ps, i, step, root)[i])
  {
    var m := TickUpTo(ps, i, step, root);
    TurnShape(m, i, step, root);
    if NearestPrey(m, i, root) == NOBODY {
      RootIs(root, 0.0, LengthSquared(m[i].x - m[i].x, m[i].y - m[i].y));
    } else {
      CaptureRule(m, i, step, root);
    }
  }
}
