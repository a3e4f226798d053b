/** The continuous chase (src/chase_simulation.c): each living player in slot order runs towards
    its nearest prey and captures it on contact.

    `root` stands for `sqrtf`. Nothing in this module assumes anything about it; the geometry
    proved elsewhere assumes that it is the square root on the non-negative reals. */
module Chase {
  import opened Common
  import opened Game

  const CHASE_SPEED := 0.8
  const CAPTURE_RADIUS := 0.5
  const NOBODY := -1

  predicate CanEat(eater: char, prey: char) {
    if eater == 'R' then prey == 'S'
    else if eater == 'S' then prey == 'P'
    else if eater == 'P' then prey == 'R'
    else false
  }

  /** Rock eats Scissors, Scissors eat Paper, Paper eats Rock, and nothing else eats anything. Among the
      three types this is the order in which they beat each other in a fight. */
  lemma WhoEatsWhom(a: char, b: char)
    ensures CanEat(a, b) <==> (a == 'R' && b == 'S') || (a == 'S' && b == 'P') || (a == 'P' && b == 'R')
    ensures IsRps(a) && IsRps(b) ==> (CanEat(a, b) <==> RpsResult(a, b) == 1) && (CanEat(b, a) <==> RpsResult(a, b) == -1)
  {
  }

  predicate IsEdible(ps: seq<Player>, hunter: nat, prey: nat)
    requires hunter < |ps| && prey < |ps|
  {
    && IsAlive(ps[prey])
    && prey != hunter
    && ps[prey].choice != ps[hunter].choice
    && CanEat(ps[hunter].choice, ps[prey].choice)
  }

  function LengthSquared(dx: real, dy: real): real { dx * dx + dy * dy }

  function Squared(ps: seq<Player>, a: nat, b: nat): real
    requires a < |ps| && b < |ps|
  {
    LengthSquared(ps[b].x - ps[a].x, ps[b].y - ps[a].y)
  }

  function Distance(ps: seq<Player>, a: nat, b: nat, root: real -> real): real
    requires a < |ps| && b < |ps|
  {
    root(Squared(ps, a, b))
  }

  /** The nearest prey among the first `n` slots; the first of several at the same distance. */
  function NearestAmong(ps: seq<Player>, hunter: nat, n: nat, root: real -> real): (r: int)
    requires hunter < |ps| && n <= |ps|
    ensures r == NOBODY || (0 <= r < n && IsEdible(ps, hunter, r))
  {
    if n == 0 then NOBODY else
      var best := NearestAmong(ps, hunter, n - 1, root);
      if IsEdible(ps, hunter, n - 1)
         && (best == NOBODY || Distance(ps, hunter, n - 1, root) < Distance(ps, hunter, best, root))
      then n - 1 else best
  }

  function NearestPrey(ps: seq<Player>, hunter: nat, root: real -> real): (r: int)
    requires hunter < |ps|
    ensures r == NOBODY || (0 <= r < |ps| && r != hunter && IsAlive(ps[hunter]) && IsEdible(ps, hunter, r))
  {
    if IsAlive(ps[hunter]) then NearestAmong(ps, hunter, |ps|, root) else NOBODY
  }

  function Captured(p: Player): Player { p.(alive := false, x := -1.0, y := -1.0) }

  /** One coordinate after a step: the normalised component times the length of the step. */
  function Advance(from: real, component: real, step: real, dist: real): real
    requires dist != 0.0
  {
    from + component / dist * step
  }

  /** A step of length `step` along the vector from the hunter to the prey, `dist` away. */
  function Moved(hunter: Player, prey: Player, step: real, dist: real): Player
    requires dist != 0.0
  {
    hunter.(x := Advance(hunter.x, prey.x - hunter.x, step, dist),
            y := Advance(hunter.y, prey.y - hunter.y, step, dist))
  }

  /** One player's turn. */
  function Act(ps: seq<Player>, i: nat, step: real, root: real -> real): (r: seq<Player>)
    requires i < |ps|
    ensures |r| == |ps|
  {
    var prey := NearestPrey(ps, i, root);
    if prey == NOBODY then ps else
      var dist := Distance(ps, i, prey, root);
      if dist <= CAPTURE_RADIUS then
        ps[prey := Captured(ps[prey])]
      else
        var moved := ps[i := Moved(ps[i], ps[prey], if step > dist then dist else step, dist)];
        if Distance(moved, i, prey, root) <= CAPTURE_RADIUS then moved[prey := Captured(moved[prey])] else moved
  }

  /** The table after the first `n` slots have had their turn. */
  function TickUpTo(ps: seq<Player>, n: nat, step: real, root: real -> real): (r: seq<Player>)
    requires n <= |ps|
    ensures |r| == |ps|
  {
    if n == 0 then ps else Act(TickUpTo(ps, n - 1, step, root), n - 1, step, root)
  }

  /** The length of a step in a tick of `dt` seconds; a negative duration counts as none. */
  function StepLength(dt: real): real { CHASE_SPEED * if dt < 0.0 then 0.0 else dt }

  function Tick(ps: seq<Player>, dt: real, root: real -> real): (r: seq<Player>)
    ensures |r| == |ps|
  {
    TickUpTo(ps, |ps|, StepLength(dt), root)
  }

  /** What the search promises: an edible player, none nearer, and none as near in a lower slot. */
  ghost predicate IsNearest(ps: seq<Player>, hunter: nat, n: nat, prey: int, root: real -> real)
    requires hunter < |ps| && n <= |ps|
  {
    if prey == NOBODY then
      forall k :: 0 <= k < n ==> !IsEdible(ps, hunter, k)
    else
      && 0 <= prey < n && IsEdible(ps, hunter, prey)
      && forall k :: 0 <= k < n && IsEdible(ps, hunter, k) ==>
           if k < prey then Distance(ps, hunter, prey, root) < Distance(ps, hunter, k, root)
           else Distance(ps, hunter, prey, root) <= Distance(ps, hunter, k, root)
  }

  lemma {:induction false} NearestAmongIsNearest(ps: seq<Player>, hunter: nat, n: nat, root: real -> real)
    requires hunter < |ps| && n <= |ps|
    ensures IsNearest(ps, hunter, n, NearestAmong(ps, hunter, n, root), root)
  {
    if n > 0 {
      NearestAmongIsNearest(ps, hunter, n - 1, root);
    }
  }

  // ---------------------------------------------------------------- the loops

  method FindNearestPrey(players: array<Player>, hunter: nat, root: real -> real) returns (best: int)
    requires hunter < players.Length
    ensures best == NearestPrey(players[..], hunter, root)
    ensures IsAlive(players[hunter]) ==> IsNearest(players[..], hunter, players.Length, best, root)
  {
    if !IsAlive(players[hunter]) {
      return NOBODY;
    }
    best := NOBODY;
    var bestDist := 0.0;
    ghost var ps := players[..];
    for i := 0 to players.Length
      invariant best == NearestAmong(ps, hunter, i, root)
      invariant best != NOBODY ==> bestDist == Distance(ps, hunter, best, root)
    {
      if IsAlive(players[i]) && i != hunter && players[i].choice != players[hunter].choice
         && CanEat(players[hunter].choice, players[i].choice)
      {
        var dx := players[i].x - players[hunter].x;
        var dy := players[i].y - players[hunter].y;
        var dist := root(LengthSquared(dx, dy));
        assert ps[i] == players[i] && ps[hunter] == players[hunter];
        if best == NOBODY || dist < bestDist {
          best, bestDist := i, dist;
        }
      }
    }
    NearestAmongIsNearest(ps, hunter, |ps|, root);
  }

  method CountChoiceTypesAlive(players: array<Player>) returns (count: nat)
    ensures count == TypesAlive(players[..])
  {
    var hasR, hasS, hasP := false, false, false;
    for i := 0 to players.Length
      invariant hasR == HasType(players[..i], 'R')
      invariant hasS == HasType(players[..i], 'S')
      invariant hasP == HasType(players[..i], 'P')
    {
      HasTypeNext(players[..], i);
      assert players[..][..i] == players[..i] && players[..][..i + 1] == players[..i + 1];
      if IsAlive(players[i]) {
        if players[i].choice == 'R' {
          hasR := true;
        } else if players[i].choice == 'S' {
          hasS := true;
        } else if players[i].choice == 'P' {
          hasP := true;
        }
      }
    }
    assert players[..players.Length] == players[..];
    count := (if hasR then 1 else 0) + (if hasS then 1 else 0) + (if hasP then 1 else 0);
  }

  lemma HasTypeNext(ps: seq<Player>, n: nat)
    requires n < |ps|
    ensures forall c :: HasType(ps[..n + 1], c) <==> HasType(ps[..n], c) || (IsAlive(ps[n]) && ps[n].choice == c)
  {
    forall c
      ensures HasType(ps[..n + 1], c) <==> HasType(ps[..n], c) || (IsAlive(ps[n]) && ps[n].choice == c)
    {
      if HasType(ps[..n], c) {
        var k :| 0 <= k < n && IsAlive(ps[..n][k]) && ps[..n][k].choice == c;
        assert ps[..n + 1][k] == ps[k];
      }
      if IsAlive(ps[n]) && ps[n].choice == c {
        assert ps[..n + 1][n] == ps[n];
      }
      if HasType(ps[..n + 1], c) {
        var k :| 0 <= k < n + 1 && IsAlive(ps[..n + 1][k]) && ps[..n + 1][k].choice == c;
        if k < n {
          assert ps[..n][k] == ps[k];
        }
      }
    }
  }

  /** One tick in place. The result says that at most one type is left. */
  method SimulateChaseTick(players: array<Player>, dt: real, root: real -> real) returns (matchEnded: bool)
    modifies players
    ensures players[..] == Tick(old(players[..]), dt, root)
    ensures matchEnded == (TypesAlive(players[..]) <= 1)
  {
    var dtSeconds := if dt < 0.0 then 0.0 else dt;
    ghost var before := players[..];
    for i := 0 to players.Length
      invariant players[..] == TickUpTo(before, i, StepLength(dt), root)
    {
      TakeTurn(players, i, dtSeconds, root);
    }
    var typesAlive := CountChoiceTypesAlive(players);
    matchEnded := typesAlive <= 1;
  }

  /** The body of the tick's loop. */
  method TakeTurn(players: array<Player>, i: nat, dtSeconds: real, root: real -> real)
    requires i < players.Length
    modifies players
    ensures players[..] == Act(old(players[..]), i, CHASE_SPEED * dtSeconds, root)
  {
    if !IsAlive(players[i]) {
      return;
    }
    var prey := FindNearestPrey(players, i, root);
    if prey == NOBODY {
      return;
    }
    var dx := players[prey].x - players[i].x;
    var dy := players[prey].y - players[i].y;
    var dist := root(LengthSquared(dx, dy));
    ghost var before := players[..];
    assert before[i] == players[i] && before[prey] == players[prey];
    if dist <= CAPTURE_RADIUS {
      players[prey] := players[prey].(alive := false, x := -1.0, y := -1.0);
    } else {
      var moveDist := CHASE_SPEED * dtSeconds;
      if moveDist > dist {
        moveDist := dist;
      }
      players[i] := players[i].(x := Advance(players[i].x, dx, moveDist, dist),
                                y := Advance(players[i].y, dy, moveDist, dist));
      assert players[..] == before[i := Moved(before[i], before[prey], moveDist, dist)];
      assert players[prey] == before[prey];
      var ndx := players[prey].x - players[i].x;
      var ndy := players[prey].y - players[i].y;
      var ndist := root(LengthSquared(ndx, ndy));
      if ndist <= CAPTURE_RADIUS {
        players[prey] := players[prey].(alive := false, x := -1.0, y := -1.0);
      }
    }
  }
}
