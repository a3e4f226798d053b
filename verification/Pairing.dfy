/** Greedy pairing of the players in a round (`build_pairs` in src/game.c). */
module Pairing {
  import opened Common
  import opened Chase

  /** Slots of a pair, the lower one first. */
  datatype Pair = Pair(a: int, b: int)

  predicate IsEligible(p: Player) { IsAlive(p) && p.inRound }

  /** The eligible slots, in order. */
  function Eligible(ps: seq<Player>): (r: seq<int>)
    ensures forall k :: 0 <= k < |r| ==> 0 <= r[k] < |ps|
  {
    if ps == [] then [] else
      Eligible(ps[..|ps| - 1]) + if IsEligible(ps[|ps| - 1]) then [|ps| - 1] else []
  }

  ghost predicate Ascending(s: seq<int>) {
    forall i, j :: 0 <= i < j < |s| ==> s[i] < s[j]
  }

  ghost predicate SlotsOf(ps: seq<Player>, s: seq<int>) {
    Ascending(s) && forall k :: 0 <= k < |s| ==> 0 <= s[k] < |ps|
  }

  /** Squared distance, truncated to an integer. */
  function Dist2(a: Player, b: Player): int {
    LengthSquared(a.x - b.x, a.y - b.y).Floor
  }

  /** Whether `p` comes before `q`: by distance, then by the ids of the lower and the higher slot. */
  predicate Before(ps: seq<Player>, p: Pair, q: Pair)
    requires 0 <= p.a < |ps| && 0 <= p.b < |ps| && 0 <= q.a < |ps| && 0 <= q.b < |ps|
  {
    var dp, dq := Dist2(ps[p.a], ps[p.b]), Dist2(ps[q.a], ps[q.b]);
    || dp < dq
    || (dp == dq && (ps[p.a].id < ps[q.a].id || (ps[p.a].id == ps[q.a].id && ps[p.b].id < ps[q.b].id)))
  }

  /** The pair is made of two of the slots, and no other pair of them comes before it. */
  ghost predicate IsClosest(ps: seq<Player>, slots: seq<int>, p: Pair)
    requires SlotsOf(ps, slots)
  {
    && p.a in slots && p.b in slots && p.a < p.b
    && forall i, j :: 0 <= i < j < |slots| ==> !Before(ps, Pair(slots[i], slots[j]), p)
  }

  function Without(s: seq<int>, p: Pair): seq<int> {
    if s == [] then [] else
      (if s[0] == p.a || s[0] == p.b then [] else [s[0]]) + Without(s[1..], p)
  }

  /** `pairs` were taken from `slots` greedily, each the closest of what was left by those before
      it, and `left` is what remains. */
  ghost predicate Greedy(ps: seq<Player>, slots: seq<int>, pairs: seq<Pair>, left: seq<int>)
    decreases |pairs|
  {
    && SlotsOf(ps, slots)
    && if pairs == [] then left == slots else
         IsClosest(ps, slots, pairs[0]) && Greedy(ps, Without(slots, pairs[0]), pairs[1..], left)
  }

  // ---------------------------------------------------------------- facts

  lemma {:induction false} EligibleAscending(ps: seq<Player>)
    ensures SlotsOf(ps, Eligible(ps))
    ensures forall k :: 0 <= k < |ps| ==> (k in Eligible(ps) <==> IsEligible(ps[k]))
  {
    if ps != [] {
      var q := ps[..|ps| - 1];
      EligibleAscending(q);
      assert forall k :: 0 <= k < |q| ==> q[k] == ps[k];
    }
  }

  lemma {:induction false} WithoutMembers(s: seq<int>, p: Pair)
    ensures forall x :: x in Without(s, p) <==> x in s && x != p.a && x != p.b
    ensures Ascending(s) ==> Ascending(Without(s, p))
    ensures Ascending(s) && p.a in s && p.b in s && p.a != p.b ==> |Without(s, p)| == |s| - 2
  {
    WithoutLength(s, p);
    if s != [] {
      WithoutMembers(s[1..], p);
      assert s == [s[0]] + s[1..];
      var rest := Without(s[1..], p);
      if Ascending(s) {
        assert Ascending(s[1..]);
        forall i | 0 <= i < |rest|
          ensures s[0] < rest[i]
        {
          assert rest[i] in rest;
        }
      }
    }
  }

  lemma {:induction false} WithoutLength(s: seq<int>, p: Pair)
    ensures Ascending(s) ==>
              |Without(s, p)| == |s| - (if p.a in s then 1 else 0) - (if p.b in s && p.b != p.a then 1 else 0)
  {
    if s != [] && Ascending(s) {
      var t := s[1..];
      assert Ascending(t);
      WithoutLength(t, p);
      assert s[0] !in t;
      assert forall x :: x in s <==> x == s[0] || x in t;
    }
  }

  function PairSlots(pairs: seq<Pair>): set<int> {
    if pairs == [] then {} else {pairs[0].a, pairs[0].b} + PairSlots(pairs[1..])
  }

  ghost predicate Disjoint(pairs: seq<Pair>) {
    forall i, j :: 0 <= i < j < |pairs| ==> {pairs[i].a, pairs[i].b} !! {pairs[j].a, pairs[j].b}
  }

  lemma ClosestMembers(ps: seq<Player>, slots: seq<int>, p: Pair)
    requires SlotsOf(ps, slots) && IsClosest(ps, slots, p)
    ensures p.a in slots && p.b in slots && p.a < p.b
    ensures |Without(slots, p)| == |slots| - 2
    ensures forall x :: x in slots <==> x in Without(slots, p) || x == p.a || x == p.b
    ensures p.a !in Without(slots, p) && p.b !in Without(slots, p)
  {
    WithoutMembers(slots, p);
    hide Before, Without;
  }

  /** The pairs, and what is left, cover the slots, and the numbers add up. */
  lemma {:induction false} GreedyCovers(ps: seq<Player>, slots: seq<int>, pairs: seq<Pair>, left: seq<int>)
    requires Greedy(ps, slots, pairs, left)
    ensures SlotsOf(ps, left) && |left| == |slots| - 2 * |pairs|
    ensures forall x :: x in slots <==> x in PairSlots(pairs) || x in left
    ensures forall x :: !(x in PairSlots(pairs) && x in left)
    decreases |pairs|
  {
    hide IsClosest, Without, SlotsOf;
    if pairs != [] {
      ClosestMembers(ps, slots, pairs[0]);
      GreedyCovers(ps, Without(slots, pairs[0]), pairs[1..], left);
    }
  }

  /** The pairs are made of the slots, lower one first, and have no slot in common. */
  lemma {:induction false} GreedyDisjoint(ps: seq<Player>, slots: seq<int>, pairs: seq<Pair>, left: seq<int>)
    requires Greedy(ps, slots, pairs, left)
    ensures forall i :: 0 <= i < |pairs| ==> pairs[i].a in slots && pairs[i].b in slots && pairs[i].a < pairs[i].b
    ensures Disjoint(pairs)
    decreases |pairs|
  {
    hide IsClosest, Without, SlotsOf;
    if pairs != [] {
      ClosestMembers(ps, slots, pairs[0]);
      GreedyDisjoint(ps, Without(slots, pairs[0]), pairs[1..], left);
      assert forall j :: 1 <= j < |pairs| ==> pairs[j] == pairs[1..][j - 1];
    }
  }

  /** Greedy pairing is a partition: the pairs are disjoint, what is left is the complement. */
  lemma GreedyPartitions(ps: seq<Player>, slots: seq<int>, pairs: seq<Pair>, left: seq<int>)
    requires Greedy(ps, slots, pairs, left)
    ensures SlotsOf(ps, left) && Disjoint(pairs) && |left| == |slots| - 2 * |pairs|
    ensures forall x :: x in slots <==> x in PairSlots(pairs) || x in left
    ensures forall x :: !(x in PairSlots(pairs) && x in left)
    ensures forall i :: 0 <= i < |pairs| ==> pairs[i].a in slots && pairs[i].b in slots && pairs[i].a < pairs[i].b
  {
    hide Greedy;
    GreedyCovers(ps, slots, pairs, left);
    GreedyDisjoint(ps, slots, pairs, left);
  }

  ghost predicate DistinctIds(ps: seq<Player>, slots: seq<int>) {
    && (forall k :: 0 <= k < |slots| ==> 0 <= slots[k] < |ps|)
    && forall i, j :: 0 <= i < j < |slots| ==> ps[slots[i]].id != ps[slots[j]].id
  }

  lemma ClosestIsUnique(ps: seq<Player>, slots: seq<int>, p: Pair, q: Pair)
    requires SlotsOf(ps, slots) && DistinctIds(ps, slots) && IsClosest(ps, slots, p) && IsClosest(ps, slots, q)
    ensures p == q
  {
    hide Dist2;
    var i :| 0 <= i < |slots| && slots[i] == p.a;
    var j :| 0 <= j < |slots| && slots[j] == p.b;
    var i' :| 0 <= i' < |slots| && slots[i'] == q.a;
    var j' :| 0 <= j' < |slots| && slots[j'] == q.b;
    assert i < j && i' < j';
    assert !Before(ps, Pair(slots[i], slots[j]), q) && !Before(ps, Pair(slots[i'], slots[j']), p);
  }

  /** With distinct ids the greedy pairing is determined by the players and the number of pairs. */
  lemma {:induction false} GreedyIsUnique(
      ps: seq<Player>, slots: seq<int>, pairs: seq<Pair>, left: seq<int>, pairs': seq<Pair>, left': seq<int>)
    requires Greedy(ps, slots, pairs, left) && Greedy(ps, slots, pairs', left') && |pairs| == |pairs'|
    requires DistinctIds(ps, slots)
    ensures pairs == pairs' && left == left'
    decreases |pairs|
  {
    hide IsClosest, SlotsOf, DistinctIds, Without;
    if pairs != [] {
      ClosestIsUnique(ps, slots, pairs[0], pairs'[0]);
      WithoutIds(ps, slots, pairs[0]);
      GreedyIsUnique(ps, Without(slots, pairs[0]), pairs[1..], left, pairs'[1..], left');
      assert pairs == [pairs[0]] + pairs[1..] && pairs' == [pairs'[0]] + pairs'[1..];
    }
  }

  lemma WithoutIds(ps: seq<Player>, slots: seq<int>, p: Pair)
    requires SlotsOf(ps, slots) && DistinctIds(ps, slots)
    ensures DistinctIds(ps, Without(slots, p))
  {
    WithoutSlots(ps, slots, p);
    WithoutMembers(slots, p);
    var rest := Without(slots, p);
    hide Without;
    forall i, j | 0 <= i < j < |rest|
      ensures ps[rest[i]].id != ps[rest[j]].id
    {
      assert rest[i] in slots && rest[j] in slots;
      var k :| 0 <= k < |slots| && slots[k] == rest[i];
      var l :| 0 <= l < |slots| && slots[l] == rest[j];
      assert k < l;
    }
  }

  lemma {:induction false} GreedyAppend(ps: seq<Player>, slots: seq<int>, pairs: seq<Pair>, left: seq<int>, p: Pair)
    requires Greedy(ps, slots, pairs, left) && SlotsOf(ps, left) && IsClosest(ps, left, p)
    ensures Greedy(ps, slots, pairs + [p], Without(left, p))
    decreases |pairs|
  {
    if pairs == [] {
      WithoutMembers(left, p);
      assert [p][1..] == [];
      assert SlotsOf(ps, Without(left, p)) by { WithoutSlots(ps, left, p); }
      assert pairs + [p] == [p];
    } else {
      assert (pairs + [p])[1..] == pairs[1..] + [p];
      GreedyAppend(ps, Without(slots, pairs[0]), pairs[1..], left, p);
    }
  }

  lemma WithoutSlots(ps: seq<Player>, slots: seq<int>, p: Pair)
    requires SlotsOf(ps, slots)
    ensures SlotsOf(ps, Without(slots, p))
  {
    WithoutMembers(slots, p);
    var rest := Without(slots, p);
    forall k | 0 <= k < |rest|
      ensures 0 <= rest[k] < |ps|
    {
      assert rest[k] in slots;
    }
  }

  lemma CutTail(s: seq<int>, i: nat, j: nat)
    requires 0 < i < j < |s|
    ensures s[..i] + s[i + 1..j] + s[j + 1..] == [s[0]] + (s[1..][..i - 1] + s[1..][i..j - 1] + s[1..][j..])
  {
  }

  /** Deleting two positions of an ascending sequence is removing the two slots there. */
  lemma {:induction false} DeletedTwo(s: seq<int>, i: nat, j: nat)
    requires i < j < |s| && Ascending(s)
    ensures s[..i] + s[i + 1..j] + s[j + 1..] == Without(s, Pair(s[i], s[j]))
  {
    hide Ascending, Without;
    var p := Pair(s[i], s[j]);
    var t := s[1..];
    FirstIsLeast(s);
    assert s[j] == t[j - 1] && s[0] != s[j];
    WithoutFirst(s, p);
    if i > 0 {
      assert s[i] == t[i - 1] && s[0] != s[i];
      DeletedTwo(t, i - 1, j - 1);
      CutTail(s, i, j);
    } else {
      DeletedOne(t, j - 1, p.a, p.b);
      assert s[..i] + s[i + 1..j] + s[j + 1..] == t[..j - 1] + t[j..];
    }
  }

  lemma FirstIsLeast(s: seq<int>)
    requires s != [] && Ascending(s)
    ensures Ascending(s[1..]) && s[0] !in s[1..] && forall k :: 0 < k < |s| ==> s[k] != s[0]
  {
  }

  lemma WithoutFirst(s: seq<int>, p: Pair)
    requires s != []
    ensures Without(s, p) == if s[0] == p.a || s[0] == p.b then Without(s[1..], p) else [s[0]] + Without(s[1..], p)
  {
    assert [] + Without(s[1..], p) == Without(s[1..], p);
  }

  lemma {:induction false} DeletedOne(s: seq<int>, j: nat, a: int, b: int)
    requires j < |s| && Ascending(s) && s[j] == b && a !in s
    ensures s[..j] + s[j + 1..] == Without(s, Pair(a, b))
  {
    var t := s[1..];
    assert Ascending(t);
    if j > 0 {
      DeletedOne(t, j - 1, a, b);
      assert s[..j] + s[j + 1..] == [s[0]] + (t[..j - 1] + t[j..]);
    } else {
      NothingDeleted(t, Pair(a, b));
    }
  }

  lemma {:induction false} NothingDeleted(s: seq<int>, p: Pair)
    requires p.a !in s && p.b !in s
    ensures Without(s, p) == s
  {
    if s != [] {
      NothingDeleted(s[1..], p);
    }
  }

  // ---------------------------------------------------------------- the loops

  /** Among the pairs of entries scanned so far (those with a lower first index than `i`, and
      those with `i` and a lower second index than `j`) none comes before the best one. */
  ghost predicate BestSoFar(ps: seq<Player>, um: seq<int>, i: int, j: int, bestI: int, bestJ: int)
    requires SlotsOf(ps, um)
  {
    && 0 <= bestI < bestJ < |um|
    && forall k, l :: 0 <= k < l < |um| && (k < i || (k == i && l < j)) ==>
         !Before(ps, Pair(um[k], um[l]), Pair(um[bestI], um[bestJ]))
  }

  lemma BetterPair(ps: seq<Player>, um: seq<int>, i: int, j: int, bestI: int, bestJ: int)
    requires SlotsOf(ps, um) && 0 <= i < j < |um| && BestSoFar(ps, um, i, j, bestI, bestJ)
    ensures if Before(ps, Pair(um[i], um[j]), Pair(um[bestI], um[bestJ])) then BestSoFar(ps, um, i, j + 1, i, j)
            else BestSoFar(ps, um, i, j + 1, bestI, bestJ)
  {
    hide Dist2;
  }

  lemma FirstPair(ps: seq<Player>, um: seq<int>)
    requires SlotsOf(ps, um) && |um| >= 2
    ensures BestSoFar(ps, um, 0, 2, 0, 1)
  {
  }

  lemma NextRow(ps: seq<Player>, um: seq<int>, i: int, bestI: int, bestJ: int)
    requires SlotsOf(ps, um) && BestSoFar(ps, um, i, |um|, bestI, bestJ)
    ensures BestSoFar(ps, um, i + 1, i + 2, bestI, bestJ)
  {
    hide Before;
  }

  lemma LastRow(ps: seq<Player>, um: seq<int>, bestI: int, bestJ: int)
    requires SlotsOf(ps, um) && BestSoFar(ps, um, |um|, |um| + 1, bestI, bestJ)
    ensures IsClosest(ps, um, Pair(um[bestI], um[bestJ]))
  {
    hide Before;
  }

  /** The nested minimum search over the first `n` entries of `unmatched`. */
  method FindClosest(players: array<Player>, unmatched: array<int>, n: nat) returns (bestI: int, bestJ: int)
    requires 2 <= n <= unmatched.Length && SlotsOf(players[..], unmatched[..n])
    ensures 0 <= bestI < bestJ < n
    ensures IsClosest(players[..], unmatched[..n], Pair(unmatched[bestI], unmatched[bestJ]))
  {
    hide BestSoFar, IsClosest, Dist2;
    ghost var ps, um := players[..], unmatched[..n];
    assert forall k :: 0 <= k < n ==> um[k] == unmatched[k] && 0 <= um[k] < |ps|;
    hide SlotsOf;
    bestI, bestJ := -1, -1;
    var bestD := 0;
    for i := 0 to n
      invariant i == 0 ==> bestI == bestJ == -1
      invariant i > 0 ==> 0 <= bestI < bestJ < n && bestD == Dist2(ps[um[bestI]], ps[um[bestJ]])
      invariant i > 0 ==> BestSoFar(ps, um, i, i + 1, bestI, bestJ)
    {
      for j := i + 1 to n
        invariant i == 0 && j == 1 ==> bestI == bestJ == -1
        invariant i > 0 || j > 1 ==> 0 <= bestI < bestJ < n && bestD == Dist2(ps[um[bestI]], ps[um[bestJ]])
        invariant i > 0 || j > 1 ==> BestSoFar(ps, um, i, j, bestI, bestJ)
      {
        var pi, pj := unmatched[i], unmatched[j];
        var d := Dist2(players[pi], players[pj]);
        var idI, idJ := players[pi].id, players[pj].id;
        var bestIdI := if bestI >= 0 then players[unmatched[bestI]].id else 0;
        var bestIdJ := if bestJ >= 0 then players[unmatched[bestJ]].id else 0;
        if bestI >= 0 {
          BetterPair(ps, um, i, j, bestI, bestJ);
        } else {
          FirstPair(ps, um);
        }
        if bestI == -1 || d < bestD || (d == bestD && (idI < bestIdI || (idI == bestIdI && idJ < bestIdJ))) {
          bestI, bestJ, bestD := i, j, d;
        }
      }
      if i < n - 1 {
        NextRow(ps, um, i, bestI, bestJ);
      } else {
        LastPairSeen(ps, um, bestI, bestJ);
      }
    }
    LastRow(ps, um, bestI, bestJ);
  }

  lemma LastPairSeen(ps: seq<Player>, um: seq<int>, bestI: int, bestJ: int)
    requires SlotsOf(ps, um) && |um| >= 2 && BestSoFar(ps, um, |um| - 1, |um|, bestI, bestJ)
    ensures BestSoFar(ps, um, |um|, |um| + 1, bestI, bestJ)
  {
    hide Before;
  }

  /** Moves the entries behind `at` one place down. */
  method DeleteAt(unmatched: array<int>, n: nat, at: nat)
    requires at < n <= unmatched.Length
    modifies unmatched
    ensures unmatched[..n - 1] == old(unmatched[..at]) + old(unmatched[at + 1..n])
  {
    for k := at to n - 1
      invariant unmatched[..at] == old(unmatched[..at])
      invariant forall m :: at <= m < k ==> unmatched[m] == old(unmatched[m + 1])
      invariant forall m :: k <= m < unmatched.Length ==> unmatched[m] == old(unmatched[m])
    {
      unmatched[k] := unmatched[k + 1];
    }
  }

  lemma CutTwice(s: seq<int>, i: nat, j: nat)
    requires i < j < |s|
    ensures var t := s[..j] + s[j + 1..]; t[..i] + t[i + 1..] == s[..i] + s[i + 1..j] + s[j + 1..]
  {
  }

  method DeletePair(unmatched: array<int>, n: nat, i: nat, j: nat)
    requires i < j < n <= unmatched.Length && Ascending(unmatched[..n])
    modifies unmatched
    ensures unmatched[..n - 2] == Without(old(unmatched[..n]), Pair(old(unmatched[i]), old(unmatched[j])))
  {
    ghost var s := unmatched[..n];
    DeleteAt(unmatched, n, j);
    ghost var t := unmatched[..n - 1];
    assert t == s[..j] + s[j + 1..];
    DeleteAt(unmatched, n - 1, i);
    assert unmatched[..n - 2] == t[..i] + t[i + 1..];
    hide Ascending, Without;
    CutTwice(s, i, j);
    DeletedTwo(s, i, j);
  }

  method CollectEligible(players: array<Player>) returns (unmatched: array<int>, n: nat)
    ensures fresh(unmatched) && n <= unmatched.Length && unmatched[..n] == Eligible(players[..])
  {
    unmatched := new int[players.Length](_ => 0);
    n := 0;
    for i := 0 to players.Length
      invariant n <= i
      invariant unmatched[..n] == Eligible(players[..i])
    {
      assert players[..i + 1][..i] == players[..i];
      if IsEligible(players[i]) {
        unmatched[n] := i;
        n := n + 1;
      }
    }
    assert players[..players.Length] == players[..];
  }

  lemma GreedyStart(ps: seq<Player>, slots: seq<int>)
    requires SlotsOf(ps, slots)
    ensures Greedy(ps, slots, [], slots)
  {
  }

  lemma SlotsAscend(ps: seq<Player>, slots: seq<int>)
    requires SlotsOf(ps, slots)
    ensures Ascending(slots)
  {
  }

  /** One turn of the pairing loop: the closest two of the first `n` entries become pair `count`. */
  method PairOff(players: array<Player>, unmatched: array<int>, n: nat, pairs: array<Pair>, count: nat, ghost slots: seq<int>)
    requires 2 <= n <= unmatched.Length && count < pairs.Length
    requires SlotsOf(players[..], unmatched[..n])
    requires Greedy(players[..], slots, pairs[..count], unmatched[..n])
    modifies unmatched, pairs
    ensures SlotsOf(players[..], unmatched[..n - 2])
    ensures Greedy(players[..], slots, pairs[..count + 1], unmatched[..n - 2])
  {
    hide Greedy, IsClosest, Without, SlotsOf;
    var i, j := FindClosest(players, unmatched, n);
    ghost var before, chosen := unmatched[..n], pairs[..count];
    var p := Pair(unmatched[i], unmatched[j]);
    SlotsAscend(players[..], before);
    GreedyAppend(players[..], slots, chosen, before, p);
    WithoutSlots(players[..], before, p);
    pairs[count] := p;
    assert pairs[..count + 1] == chosen + [p];
    DeletePair(unmatched, n, i, j);
  }

  /** Pairs up the eligible players greedily, at most `maxPairs` times. The slot that gets a bye is
      the one left over when exactly one is, and -1 otherwise. */
  method BuildPairs(players: array<Player>, pairs: array<Pair>, maxPairs: nat)
    returns (count: nat, bye: int, ghost left: seq<int>)
    requires maxPairs <= pairs.Length
    modifies pairs
    ensures var n := |Eligible(players[..])|; count == if n / 2 <= maxPairs then n / 2 else maxPairs
    ensures count <= pairs.Length && Greedy(players[..], Eligible(players[..]), pairs[..count], left)
    ensures bye == if |left| == 1 then left[0] else -1
  {
    hide Greedy, SlotsOf, Eligible;
    ghost var slots := Eligible(players[..]);
    EligibleAscending(players[..]);
    GreedyStart(players[..], slots);
    var unmatched, n := CollectEligible(players);
    count, bye := 0, -1;
    assert pairs[..count] == [];
    while n >= 2 && count < maxPairs
      invariant 0 <= n <= unmatched.Length && count <= maxPairs && fresh(unmatched)
      invariant n + 2 * count == |slots|
      invariant SlotsOf(players[..], unmatched[..n])
      invariant Greedy(players[..], slots, pairs[..count], unmatched[..n])
      decreases n
    {
      PairOff(players, unmatched, n, pairs, count, slots);
      count := count + 1;
      n := n - 2;
    }
    left := unmatched[..n];
    if n == 1 {
      bye := unmatched[0];
    }
  }
}
