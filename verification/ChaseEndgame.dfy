/** The two-type endgame of the chase: when only hunters and their prey are left, the hunters
    win, within a number of ticks that depends on the tick length and the number of prey. */
module ChaseEndgame {
  import opened Common
  import opened Game
  import opened Chase
  import opened ChaseGeometry

  /** Slots of the living players of one type. */
  function Herd(ps: seq<Player>, choice: char): set<int> {
    set k | 0 <= k < |ps| && IsAlive(ps[k]) && ps[k].choice == choice
  }

  /** Type `x` hunts type `y`. */
  predicate Hunts(x: char, y: char) {
    (x == 'R' && y == 'S') || (x == 'S' && y == 'P') || (x == 'P' && y == 'R')
  }

  /** Only hunters of type `x` and their prey of type `y` live. */
  ghost predicate Endgame(ps: seq<Player>, x: char, y: char) {
    && Hunts(x, y)
    && forall k :: 0 <= k < |ps| && IsAlive(ps[k]) ==> ps[k].choice == x || ps[k].choice == y
  }

  /** From `ps` to `r` no hunter was lost, and prey either kept its place or was captured. */
  ghost predicate Hunted(ps: seq<Player>, r: seq<Player>, x: char, y: char)
    requires |ps| == |r|
  {
    && Endgame(r, x, y)
    && Herd(r, x) == Herd(ps, x)
    && Herd(r, y) <= Herd(ps, y)
    && forall k :: k in Herd(r, y) ==> r[k] == ps[k]
  }

  lemma HuntersHuntPrey(ps: seq<Player>, hunter: nat, prey: nat, x: char, y: char)
    requires hunter < |ps| && prey < |ps| && Endgame(ps, x, y) && IsAlive(ps[hunter]) && IsEdible(ps, hunter, prey)
    ensures hunter in Herd(ps, x) && prey in Herd(ps, y)
  {
    WhoEatsWhom(ps[hunter].choice, ps[prey].choice);
    hide CanEat;
  }

  lemma TurnHunts(ps: seq<Player>, i: nat, step: real, root: real -> real, x: char, y: char)
    requires i < |ps| && step >= 0.0 && Endgame(ps, x, y)
    ensures Hunted(ps, Act(ps, i, step, root), x, y)
    ensures NearestPrey(ps, i, root) != NOBODY ==> i in Herd(ps, x) && NearestPrey(ps, i, root) in Herd(ps, y)
  {
    TurnShape(ps, i, step, root);
    var prey := NearestPrey(ps, i, root);
    if prey != NOBODY {
      HuntersHuntPrey(ps, i, prey, x, y);
    }
    assert x != y;
    hide Act, IsEdible, Hunts, NearestPrey;
  }

  lemma HuntedTransitive(a: seq<Player>, b: seq<Player>, c: seq<Player>, x: char, y: char)
    requires |a| == |b| == |c| && Hunted(a, b, x, y) && Hunted(b, c, x, y)
    ensures Hunted(a, c, x, y)
  {
  }

  lemma {:induction false} TickUpToHunts(
      ps: seq<Player>, a: nat, b: nat, step: real, root: real -> real, x: char, y: char)
    requires a <= b <= |ps| && step >= 0.0 && Endgame(ps, x, y)
    ensures Endgame(TickUpTo(ps, a, step, root), x, y)
    ensures Hunted(TickUpTo(ps, a, step, root), TickUpTo(ps, b, step, root), x, y)
    decreases b
  {
    hide Act, Hunted, Endgame;
    if a < b {
      TickUpToHunts(ps, a, b - 1, step, root, x, y);
      TickUpToHunts(ps, b - 1, b - 1, step, root, x, y);
      TurnHunts(TickUpTo(ps, b - 1, step, root), b - 1, step, root, x, y);
      HuntedTransitive(TickUpTo(ps, a, step, root), TickUpTo(ps, b - 1, step, root), TickUpTo(ps, b, step, root), x, y);
    } else if a > 0 {
      TickUpToHunts(ps, a - 1, a - 1, step, root, x, y);
      TurnHunts(TickUpTo(ps, a - 1, step, root), a - 1, step, root, x, y);
      HuntedMeansEndgame(TickUpTo(ps, a - 1, step, root), TickUpTo(ps, a, step, root), x, y);
      HuntedReflexive(TickUpTo(ps, a, step, root), x, y);
    } else {
      HuntedReflexive(ps, x, y);
    }
  }

  lemma HuntedReflexive(ps: seq<Player>, x: char, y: char)
    requires Endgame(ps, x, y)
    ensures Hunted(ps, ps, x, y)
  {
  }

  lemma HuntedMeansEndgame(ps: seq<Player>, r: seq<Player>, x: char, y: char)
    requires |ps| == |r| && Hunted(ps, r, x, y)
    ensures Endgame(r, x, y)
  {
  }

  /** The distance from a hunter to its nearest prey. */
  function Gap(ps: seq<Player>, hunter: nat, root: real -> real): real
    requires hunter < |ps|
  {
    var prey := NearestPrey(ps, hunter, root);
    if prey == NOBODY then 0.0 else Distance(ps, hunter, prey, root)
  }

  /** In the endgame a hunter's gap is the least distance to any prey. */
  lemma GapIsLeast(ps: seq<Player>, hunter: nat, root: real -> real, x: char, y: char)
    requires Endgame(ps, x, y) && hunter in Herd(ps, x) && Herd(ps, y) != {}
    ensures NearestPrey(ps, hunter, root) in Herd(ps, y)
    ensures Gap(ps, hunter, root) == Distance(ps, hunter, NearestPrey(ps, hunter, root), root)
    ensures forall k :: k in Herd(ps, y) ==> Gap(ps, hunter, root) <= Distance(ps, hunter, k, root)
  {
    NearestAmongIsNearest(ps, hunter, |ps|, root);
    hide NearestAmong;
    assert forall k :: k in Herd(ps, y) ==> IsEdible(ps, hunter, k);
    var k :| k in Herd(ps, y);
    assert IsEdible(ps, hunter, k);
  }

  /** The hunter's turn takes `m` to `m'`. When prey and hunter rest before and after it and the
      hunter captures nobody, its gap shrinks by a whole step. */
  lemma TurnShrinksGap(ps: seq<Player>, m: seq<Player>, r: seq<Player>, hunter: nat,
                       step: real, root: real -> real, x: char, y: char)
    requires |ps| == |m| == |r| && step >= 0.0 && IsRoot(root)
    requires Endgame(ps, x, y) && Endgame(m, x, y) && Endgame(r, x, y)
    requires hunter in Herd(ps, x) && hunter in Herd(m, x) && hunter in Herd(r, x)
    requires Herd(ps, y) == Herd(m, y) == Herd(r, y) != {}
    requires forall k :: k in Herd(ps, y) ==> m[k] == ps[k] && r[k] == ps[k] && Act(m, hunter, step, root)[k] == ps[k]
    requires m[hunter] == ps[hunter] && r[hunter] == Act(m, hunter, step, root)[hunter]
    ensures Gap(r, hunter, root) <= Gap(ps, hunter, root) - step
    ensures Gap(ps, hunter, root) - step > CAPTURE_RADIUS
  {
    GapIsLeast(ps, hunter, root, x, y);
    GapIsLeast(m, hunter, root, x, y);
    GapIsLeast(r, hunter, root, x, y);
    var prey := NearestPrey(m, hunter, root);
    CaptureRule(m, hunter, step, root);
    hide Act, NearestPrey;
    var before := NearestPrey(ps, hunter, root);
    assert Distance(m, hunter, before, root) == Distance(ps, hunter, before, root);
    assert Distance(r, hunter, prey, root) == Distance(m, hunter, prey, root) - step;
  }

  /** In a tick without capture every hunter's gap shrinks by a whole step. */
  lemma CaptureFreeTick(ps: seq<Player>, hunter: nat, dt: real, root: real -> real, x: char, y: char)
    requires IsRoot(root) && Endgame(ps, x, y) && hunter in Herd(ps, x)
    requires Herd(Tick(ps, dt, root), y) == Herd(ps, y) != {}
    ensures Gap(Tick(ps, dt, root), hunter, root) <= Gap(ps, hunter, root) - StepLength(dt)
    ensures Gap(ps, hunter, root) > CAPTURE_RADIUS + StepLength(dt)
  {
    hide Act, TickUpTo, Gap, Endgame;
    var step := StepLength(dt);
    var m := TickUpTo(ps, hunter, step, root);
    var m' := TickUpTo(ps, hunter + 1, step, root);
    var r := TickUpTo(ps, |ps|, step, root);
    TickUnfolds(ps, hunter, step, root);
    TickUpToHunts(ps, 0, hunter, step, root, x, y);
    TickUpToHunts(ps, hunter, hunter + 1, step, root, x, y);
    TickUpToHunts(ps, hunter + 1, |ps|, step, root, x, y);
    HerdMembers(ps, m, m', r, hunter, x, y);
    HunterRests(ps, hunter, step, root);
    TurnShrinksGap(ps, m, r, hunter, step, root, x, y);
  }

  lemma TickUnfolds(ps: seq<Player>, n: nat, step: real, root: real -> real)
    requires n < |ps|
    ensures TickUpTo(ps, 0, step, root) == ps
    ensures TickUpTo(ps, n + 1, step, root) == Act(TickUpTo(ps, n, step, root), n, step, root)
  {
    hide Act;
  }

  /** When no prey is lost over three stages, all of it rests, and the hunter stays alive. */
  lemma HerdMembers(ps: seq<Player>, m: seq<Player>, m': seq<Player>, r: seq<Player>, hunter: nat, x: char, y: char)
    requires |ps| == |m| == |m'| == |r| && hunter in Herd(ps, x)
    requires Hunted(ps, m, x, y) && Hunted(m, m', x, y) && Hunted(m', r, x, y) && Herd(r, y) == Herd(ps, y)
    ensures hunter < |ps| && IsAlive(m[hunter]) && IsAlive(r[hunter])
    ensures hunter in Herd(m, x) && hunter in Herd(r, x) && Herd(m, y) == Herd(ps, y)
    ensures Endgame(m, x, y) && Endgame(r, x, y)
    ensures forall k :: k in Herd(ps, y) ==> m[k] == ps[k] && m'[k] == ps[k] && r[k] == ps[k]
  {
  }

  /** Contact is fatal, and to the prey: when a living hunter begins a tick no farther from some prey
      than the radius of capture and one step, some prey is captured in it, and every hunter lives. */
  lemma ContactCaptures(ps: seq<Player>, hunter: nat, prey: nat, dt: real, root: real -> real, x: char, y: char)
    requires IsRoot(root) && Endgame(ps, x, y) && hunter in Herd(ps, x) && prey in Herd(ps, y)
    requires Distance(ps, hunter, prey, root) <= CAPTURE_RADIUS + StepLength(dt)
    ensures Herd(Tick(ps, dt, root), y) < Herd(ps, y) && Herd(Tick(ps, dt, root), x) == Herd(ps, x)
  {
    TickHunts(ps, dt, root, x, y);
    GapIsLeast(ps, hunter, root, x, y);
    hide Tick, Gap, Endgame, Distance;
    if Herd(Tick(ps, dt, root), y) == Herd(ps, y) {
      CaptureFreeTick(ps, hunter, dt, root, x, y);
    }
  }

  /** Two players alone in contact: one tick captures the prey and changes nothing else. */
  lemma DuelIsDecided(ps: seq<Player>, hunter: nat, prey: nat, dt: real, root: real -> real)
    requires hunter < |ps| && prey < |ps| && IsAlive(ps[hunter]) && IsAlive(ps[prey])
    requires Hunts(ps[hunter].choice, ps[prey].choice) && IsRoot(root)
    requires forall k :: 0 <= k < |ps| && IsAlive(ps[k]) ==> k == hunter || k == prey
    requires Squared(ps, hunter, prey) <= 0.25
    ensures Tick(ps, dt, root) == ps[prey := ps[prey].(alive := false, x := -1.0, y := -1.0)]
  {
    var step := StepLength(dt);
    RootIs(root, 0.5, 0.25);
    RootOrder(root, Squared(ps, hunter, prey), 0.25);
    assert Distance(ps, hunter, prey, root) <= CAPTURE_RADIUS;
    DuelUpTo(ps, hunter, prey, |ps|, step, root);
  }

  lemma {:induction false} DuelUpTo(ps: seq<Player>, hunter: nat, prey: nat, n: nat, step: real, root: real -> real)
    requires hunter < |ps| && prey < |ps| && n <= |ps| && IsAlive(ps[hunter]) && IsAlive(ps[prey])
    requires Hunts(ps[hunter].choice, ps[prey].choice) && Distance(ps, hunter, prey, root) <= CAPTURE_RADIUS
    requires forall k :: 0 <= k < |ps| && IsAlive(ps[k]) ==> k == hunter || k == prey
    ensures TickUpTo(ps, n, step, root) ==
            if n <= hunter then ps else ps[prey := ps[prey].(alive := false, x := -1.0, y := -1.0)]
  {
    if n > 0 {
      DuelUpTo(ps, hunter, prey, n - 1, step, root);
      var m, i := TickUpTo(ps, n - 1, step, root), n - 1;
      NearestAmongIsNearest(m, i, |m|, root);
      hide NearestAmong, Distance;
      if i == hunter {
        assert IsEdible(m, hunter, prey);
        assert NearestPrey(m, hunter, root) == prey;
      } else {
        assert IsAlive(m[i]) ==> forall k :: 0 <= k < |m| ==> !IsEdible(m, i, k);
        assert NearestPrey(m, i, root) == NOBODY;
      }
    }
  }

  // ---------------------------------------------------------------- many ticks

  lemma TickHunts(ps: seq<Player>, dt: real, root: real -> real, x: char, y: char)
    requires Endgame(ps, x, y)
    ensures Hunted(ps, Tick(ps, dt, root), x, y)
  {
    hide Act;
    TickUpToHunts(ps, 0, |ps|, StepLength(dt), root, x, y);
  }

  lemma {:induction false} TicksHunt(ps: seq<Player>, n: nat, dt: real, root: real -> real, x: char, y: char)
    requires Endgame(ps, x, y)
    ensures Hunted(ps, Ticks(ps, n, dt, root), x, y)
  {
    hide Tick, Hunted, Endgame;
    if n == 0 {
      HuntedReflexive(ps, x, y);
    } else {
      TicksHunt(ps, n - 1, dt, root, x, y);
      var m := Ticks(ps, n - 1, dt, root);
      HuntedMeansEndgame(ps, m, x, y);
      TickHunts(m, dt, root, x, y);
      HuntedTransitive(ps, m, Tick(m, dt, root), x, y);
    }
  }

  /** Without a capture in `n` ticks the gap has shrunk by `n` steps, and was longer than that. */
  lemma {:induction false} CaptureFreeTicks(
      ps: seq<Player>, n: nat, hunter: nat, dt: real, root: real -> real, x: char, y: char)
    requires IsRoot(root) && Endgame(ps, x, y) && hunter in Herd(ps, x)
    requires Herd(Ticks(ps, n, dt, root), y) == Herd(ps, y) != {}
    ensures hunter < |ps|
    ensures Gap(Ticks(ps, n, dt, root), hunter, root) <= Gap(ps, hunter, root) - n as real * StepLength(dt)
    ensures n > 0 ==> Gap(ps, hunter, root) > n as real * StepLength(dt)
  {
    hide Tick, Gap, IsRoot, Endgame;
    if n > 0 {
      TicksHunt(ps, n - 1, dt, root, x, y);
      var m := Ticks(ps, n - 1, dt, root);
      TickHunts(m, dt, root, x, y);
      CaptureFreeTicks(ps, n - 1, hunter, dt, root, x, y);
      CaptureFreeTick(m, hunter, dt, root, x, y);
      var s := StepLength(dt);
      assert n as real * s == (n - 1) as real * s + s;
    }
  }

  /** Longer than the diagonal of the board. */
  const REACH := 14.15

  function Ceiling(v: real): int { -((-v).Floor) }

  /** How many ticks of `dt` seconds a hunter needs, at most, to get at some prey. */
  function TicksPerCapture(dt: real): (n: nat)
    requires dt > 0.0
    ensures n as real * StepLength(dt) >= REACH
    ensures n as real * (0.8 * dt) >= 14.15
  {
    var n := Ceiling(REACH / StepLength(dt));
    CeilingCovers(REACH, StepLength(dt));
    n
  }

  lemma CeilingCovers(a: real, b: real)
    requires a > 0.0 && b > 0.0
    ensures Ceiling(a / b) >= 0 && Ceiling(a / b) as real * b >= a
  {
    Divided(a, b);
    var c := Ceiling(a / b);
    assert c as real >= a / b;
    var d := c as real - a / b;
    assert d * b >= 0.0;
    assert (a / b + d) * b == a / b * b + d * b;
    assert a / b > 0.0;
  }

  lemma GapWithinReach(ps: seq<Player>, hunter: nat, root: real -> real, x: char, y: char)
    requires IsRoot(root) && Endgame(ps, x, y) && hunter in Herd(ps, x) && Herd(ps, y) != {} && InBoxWhileAlive(ps)
    ensures Gap(ps, hunter, root) <= REACH
  {
    GapIsLeast(ps, hunter, root, x, y);
    var prey := NearestPrey(ps, hunter, root);
    hide NearestPrey;
    var dx, dy := ps[prey].x - ps[hunter].x, ps[prey].y - ps[hunter].y;
    SquareBound(dx);
    SquareBound(dy);
    RootIs(root, REACH, REACH * REACH);
    RootOrder(root, LengthSquared(dx, dy), REACH * REACH);
  }

  lemma SquareBound(d: real)
    requires -10.0 <= d <= 10.0
    ensures 0.0 <= d * d <= 100.0
  {
    SquareOrder(if d < 0.0 then -d else d, 10.0);
  }

  lemma CaptureWithinReach(ps: seq<Player>, hunter: nat, dt: real, root: real -> real, x: char, y: char)
    requires dt > 0.0 && IsRoot(root) && Endgame(ps, x, y) && hunter in Herd(ps, x) && InBoxWhileAlive(ps)
    requires Herd(ps, y) != {}
    ensures Herd(Ticks(ps, TicksPerCapture(dt), dt, root), y) < Herd(ps, y)
  {
    hide Gap, IsRoot, Endgame, Ticks;
    var n := TicksPerCapture(dt);
    TicksHunt(ps, n, dt, root, x, y);
    if Herd(Ticks(ps, n, dt, root), y) == Herd(ps, y) {
      GapWithinReach(ps, hunter, root, x, y);
      CaptureFreeTicks(ps, n, hunter, dt, root, x, y);
    }
  }

  lemma {:induction false} TicksAdd(ps: seq<Player>, a: nat, b: nat, dt: real, root: real -> real)
    ensures Ticks(ps, a + b, dt, root) == Ticks(Ticks(ps, a, dt, root), b, dt, root)
    decreases b
  {
    hide Tick;
    if b > 0 {
      TicksAdd(ps, a, b - 1, dt, root);
    }
  }

  lemma {:induction false} AllPreyCaptured(
      ps: seq<Player>, hunter: nat, prey: nat, dt: real, root: real -> real, x: char, y: char)
    requires dt > 0.0 && IsRoot(root) && Endgame(ps, x, y) && hunter in Herd(ps, x) && InBoxWhileAlive(ps)
    requires |Herd(ps, y)| <= prey
    ensures Herd(Ticks(ps, prey * TicksPerCapture(dt), dt, root), y) == {}
    decreases prey
  {
    hide IsRoot, Endgame, Ticks, TicksPerCapture, InBoxWhileAlive;
    var n := TicksPerCapture(dt);
    if Herd(ps, y) == {} {
      TicksHunt(ps, prey * n, dt, root, x, y);
    } else {
      CaptureWithinReach(ps, hunter, dt, root, x, y);
      TicksHunt(ps, n, dt, root, x, y);
      TicksStayInBox(ps, n, dt, root);
      var m := Ticks(ps, n, dt, root);
      SmallerSet(Herd(m, y), Herd(ps, y));
      AllPreyCaptured(m, hunter, prey - 1, dt, root, x, y);
      TicksAdd(ps, n, (prey - 1) * n, dt, root);
      assert n + (prey - 1) * n == prey * n;
    }
  }

  lemma SmallerSet(a: set<int>, b: set<int>)
    requires a < b
    ensures |a| < |b|
  {
    assert |b - a| > 0;
    assert b == a + (b - a);
  }

  /** The two-type endgame ends, and the hunters win: from any table with living players of two
      types only, some of them hunters of the other type, after a bounded number of ticks every
      prey is captured and every hunter still lives. */
  lemma EndgameTerminates(ps: seq<Player>, dt: real, root: real -> real, x: char, y: char)
    requires dt > 0.0 && IsRoot(root)
    requires Endgame(ps, x, y) && HasType(ps, x) && InBoxWhileAlive(ps)
    ensures var r := Ticks(ps, |Herd(ps, y)| * TicksPerCapture(dt), dt, root);
            && TypesAlive(r) == 1
            && Herd(r, y) == {}
            && Herd(r, x) == Herd(ps, x)
  {
    var hunter :| 0 <= hunter < |ps| && IsAlive(ps[hunter]) && ps[hunter].choice == x;
    hide Ticks, TicksPerCapture, IsRoot;
    AllPreyCaptured(ps, hunter, |Herd(ps, y)|, dt, root, x, y);
    var n := |Herd(ps, y)| * TicksPerCapture(dt);
    TicksHunt(ps, n, dt, root, x, y);
    var r := Ticks(ps, n, dt, root);
    assert hunter in Herd(r, x);
    assert forall k :: 0 <= k < |r| && IsAlive(r[k]) && r[k].choice == y ==> k in Herd(r, y);
  }
}
