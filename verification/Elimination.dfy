/** Elimination rounds (`resolve_round` in src/server_state.c): pairs fight, winners take over the
    losers' places, and the survivors decide what comes next. This module has the round and its fights. */
module Elimination {
  import opened Common
  import opened Text
  import opened Game
  import opened Pairing
  import opened ServerState

  predicate InTable(p: Pair) { 0 <= p.a < MAX_PLAYERS && 0 <= p.b < MAX_PLAYERS && p.a != p.b }

  predicate AllInTable(pairs: seq<Pair>) { forall i :: 0 <= i < |pairs| ==> InTable(pairs[i]) }

  function Eliminated(p: Player): Player { p.(alive := false, inRound := false, x := -1.0, y := -1.0) }

  function Result(ps: Table, p: Pair): int
    requires InTable(p)
  {
    RpsResult(ps[p.a].choice, ps[p.b].choice)
  }

  /** A player after a fight with `other`: a winner takes its place, a loser is eliminated. */
  function Fighter(p: Player, other: Player, result: int): Player {
    if result == 1 then p.(x := other.x, y := other.y) else if result == -1 then Eliminated(p) else p
  }

  /** The table after one fight, before anybody is told. */
  function Fought(ps: Table, p: Pair): Table
    requires InTable(p)
  {
    var a, b, r := ps[p.a], ps[p.b], Result(ps, p);
    ps[p.a := Fighter(a, b, r)][p.b := Fighter(b, a, -r)]
  }

  /** "PAIR %s %s %c %c WINNER %s MOVE %.3f %.3f" */
  function PairLine(a: Player, b: Player, winner: Player): string {
    "PAIR " + (a.name + (" " + (b.name + (" " + ([a.choice] + (" " + ([b.choice] + (" WINNER " + (winner.name
    + (" MOVE " + (Fixed3(winner.x) + (" " + Fixed3(winner.y)))))))))))))
  }

  function TieLine(a: Player, b: Player): string {
    "PAIR " + a.name + " " + b.name + " " + [a.choice] + " " + [b.choice] + " TIE"
  }

  /** The line about a fight as it is sent. The type of an emptied record is a zero byte, which ends it. */
  function FightLine(a: Player, b: Player, winner: Player): string { CString(PairLine(a, b, winner)) }

  function TieFightLine(a: Player, b: Player): string { CString(TieLine(a, b)) }

  /** The loser is told unless the broadcast has cost it its connection. */
  function LoserTold(s: Server, i: Slot): Server {
    if s.players[i].connected then WithPlayer(s, i, Delivered(s.players[i], "ELIMINATED lost")) else s
  }

  function PairResolved(s: Server, p: Pair, now: nat): Server
    requires InTable(p)
  {
    var s1 := s.(players := Fought(s.players, p));
    var a, b := s1.players[p.a], s1.players[p.b];
    var r := Result(s.players, p);
    if r == 1 then LoserTold(Broadcast(s1, FightLine(a, b, a), now), p.b)
    else if r == -1 then LoserTold(Broadcast(s1, FightLine(a, b, b), now), p.a)
    else Broadcast(s1, TieFightLine(a, b), now)
  }

  function PairsResolved(s: Server, pairs: seq<Pair>, now: nat): Server
    requires AllInTable(pairs)
    decreases |pairs|
  {
    if pairs == [] then s else
      PairResolved(PairsResolved(s, pairs[..|pairs| - 1], now), pairs[|pairs| - 1], now)
  }

  function MapAll(ps: Table, f: Player -> Player): Table {
    seq(MAX_PLAYERS, k requires 0 <= k < MAX_PLAYERS => f(ps[k]))
  }

  function RoundLeft(p: Player): Player { p.(inRound := false) }

  function RepickReset(p: Player): Player { p.(inRound := false, repickSubmitted := false, repickChoice := '\0') }

  function BeginRepicks(s: Server, now: nat): Server {
    BroadcastPositions(Broadcast(s.(phase := Repick, players := MapAll(s.players, RepickReset)), "REPICK_START", now), now)
  }

  function ByeLine(name: string): string { "BYE " + name }

  /** The fights of the round, the bye, and the end of participation in it. */
  function RoundFought(s: Server, pairs: seq<Pair>, bye: int, now: nat): Server
    requires AllInTable(pairs) && -1 <= bye < MAX_PLAYERS
  {
    var s1 := PairsResolved(s, pairs, now);
    var s2 := if bye != -1 then Broadcast(s1, ByeLine(s1.players[bye].name), now) else s1;
    BroadcastPositions(s2.(players := MapAll(s2.players, RoundLeft)), now)
  }

  /** What the survivors of a round decide. */
  function Decide(r: Server, now: nat): Server {
    if AliveCount(r.players) <= 1 then EndGame(r)
    else if AllAliveSameChoice(r.players) then BeginRepicks(r, now)
    else StartActiveRound(r, now)
  }

  /** `resolve_round`, for the pairs and the bye that `build_pairs` returned. */
  function RoundResolved(s: Server, pairs: seq<Pair>, bye: int, now: nat): Server
    requires AllInTable(pairs) && -1 <= bye < MAX_PLAYERS
  {
    Decide(RoundFought(s, pairs, bye, now), now)
  }

  // ---------------------------------------------------------------- the fights alone

  function FoughtAll(ps: Table, pairs: seq<Pair>): Table
    requires AllInTable(pairs)
    decreases |pairs|
  {
    if pairs == [] then ps else Fought(FoughtAll(ps, pairs[..|pairs| - 1]), pairs[|pairs| - 1])
  }

  lemma {:induction false} FoughtUntouched(ps: Table, pairs: seq<Pair>, k: Slot)
    requires AllInTable(pairs) && forall i :: 0 <= i < |pairs| ==> pairs[i].a != k && pairs[i].b != k
    ensures FoughtAll(ps, pairs)[k] == ps[k]
    decreases |pairs|
  {
    if pairs != [] {
      FoughtUntouched(ps, pairs[..|pairs| - 1], k);
    }
  }

  lemma DisjointPair(pairs: seq<Pair>, i: nat, j: nat)
    requires Disjoint(pairs) && i < |pairs| && j < |pairs| && i != j
    ensures {pairs[i].a, pairs[i].b} !! {pairs[j].a, pairs[j].b}
  {
  }

  /** Disjoint pairs fight independently: both slots of a pair end as if it had been the only one. */
  lemma {:induction false} FoughtSlots(ps: Table, pairs: seq<Pair>, i: nat)
    requires AllInTable(pairs) && Disjoint(pairs) && i < |pairs|
    ensures var p := pairs[i];
            && FoughtAll(ps, pairs)[p.a] == Fought(ps, p)[p.a]
            && FoughtAll(ps, pairs)[p.b] == Fought(ps, p)[p.b]
    decreases |pairs|
  {
    var n := |pairs| - 1;
    var before, last, p := pairs[..n], pairs[n], pairs[i];
    if i == n {
      forall j | 0 <= j < n
        ensures before[j].a != p.a && before[j].b != p.a && before[j].a != p.b && before[j].b != p.b
      {
        DisjointPair(pairs, j, n);
      }
      FoughtUntouched(ps, before, p.a);
      FoughtUntouched(ps, before, p.b);
    } else {
      FoughtSlots(ps, before, i);
      DisjointPair(pairs, i, n);
      assert last.a != p.a && last.b != p.a && last.a != p.b && last.b != p.b;
    }
  }

  function Alive(ps: seq<Player>): set<int> { set k | 0 <= k < |ps| && IsAlive(ps[k]) }

  function Loser(ps: Table, p: Pair): set<int>
    requires InTable(p)
  {
    if Result(ps, p) == 1 then {p.b} else if Result(ps, p) == -1 then {p.a} else {}
  }

  function Losers(ps: Table, pairs: seq<Pair>): set<int>
    requires AllInTable(pairs)
    decreases |pairs|
  {
    if pairs == [] then {} else Losers(ps, pairs[..|pairs| - 1]) + Loser(ps, pairs[|pairs| - 1])
  }

  function Decisive(ps: Table, pairs: seq<Pair>): nat
    requires AllInTable(pairs)
    decreases |pairs|
  {
    if pairs == [] then 0 else
      Decisive(ps, pairs[..|pairs| - 1]) + if Result(ps, pairs[|pairs| - 1]) == 0 then 0 else 1
  }

  lemma {:induction false} LosersAre(ps: Table, pairs: seq<Pair>)
    requires AllInTable(pairs)
    ensures forall k :: k in Losers(ps, pairs) <==> exists i :: 0 <= i < |pairs| && k in Loser(ps, pairs[i])
    decreases |pairs|
  {
    if pairs != [] {
      var before := pairs[..|pairs| - 1];
      LosersAre(ps, before);
      forall k
        ensures k in Losers(ps, pairs) <==> exists i :: 0 <= i < |pairs| && k in Loser(ps, pairs[i])
      {
        if i :| 0 <= i < |pairs| && k in Loser(ps, pairs[i]) {
          assert i < |pairs| - 1 ==> k in Loser(ps, before[i]);
        }
        if k in Losers(ps, before) {
          var i :| 0 <= i < |before| && k in Loser(ps, before[i]);
          assert k in Loser(ps, pairs[i]);
        }
      }
    }
  }

  /** Each decisive pair has one loser, and no two have the same. */
  lemma {:induction false} LosersCounted(ps: Table, pairs: seq<Pair>)
    requires AllInTable(pairs) && Disjoint(pairs)
    ensures |Losers(ps, pairs)| == Decisive(ps, pairs) <= |pairs|
    decreases |pairs|
  {
    if pairs != [] {
      var n := |pairs| - 1;
      var before := pairs[..n];
      LosersCounted(ps, before);
      LosersAre(ps, before);
      forall i | 0 <= i < n
        ensures Loser(ps, before[i]) !! Loser(ps, pairs[n])
      {
        assert {pairs[i].a, pairs[i].b} !! {pairs[n].a, pairs[n].b};
      }
      assert Losers(ps, before) !! Loser(ps, pairs[n]);
    }
  }

  lemma FighterAfter(ps: Table, p: Pair, k: Slot)
    requires InTable(p) && (p.a == k || p.b == k)
    ensures var q := Fought(ps, p)[k];
            q == if k in Loser(ps, p) then Eliminated(ps[k]) else ps[k].(x := q.x, y := q.y)
  {
    assert ps[k] == ps[k].(x := ps[k].x, y := ps[k].y);
  }

  lemma {:induction false} LosesOnlyIn(ps: Table, pairs: seq<Pair>, i: nat, k: int)
    requires AllInTable(pairs) && Disjoint(pairs) && i < |pairs| && (pairs[i].a == k || pairs[i].b == k)
    ensures k in Losers(ps, pairs) <==> k in Loser(ps, pairs[i])
  {
    hide Losers;
    LosersAre(ps, pairs);
    forall j | 0 <= j < |pairs| && k in Loser(ps, pairs[j])
      ensures j == i
    {
      SharedSlot(pairs, i, j, k);
    }
  }

  /** One slot after the round: eliminated if it lost, and otherwise alive as before. */
  lemma {:induction false} FoughtSlot(ps: Table, pairs: seq<Pair>, k: Slot)
    requires AllInTable(pairs) && Disjoint(pairs)
    ensures var q := FoughtAll(ps, pairs)[k];
            q == if k in Losers(ps, pairs) then Eliminated(ps[k]) else ps[k].(x := q.x, y := q.y)
  {
    hide FoughtAll, Losers, Fought;
    if i :| 0 <= i < |pairs| && (pairs[i].a == k || pairs[i].b == k) {
      FoughtSlots(ps, pairs, i);
      FighterAfter(ps, pairs[i], k);
      LosesOnlyIn(ps, pairs, i, k);
    } else {
      FoughtUntouched(ps, pairs, k);
      LosersAre(ps, pairs);
      assert ps[k] == ps[k].(x := ps[k].x, y := ps[k].y);
    }
  }

  /** Where a survivor stands: where it stood, or where the one it beat stood. */
  lemma {:induction false} SurvivorPlace(ps: Table, pairs: seq<Pair>, k: Slot) returns (o: Slot)
    requires AllInTable(pairs) && Disjoint(pairs) && k !in Losers(ps, pairs)
    ensures FoughtAll(ps, pairs)[k].x == ps[o].x && FoughtAll(ps, pairs)[k].y == ps[o].y
    ensures o == k || (o in Losers(ps, pairs) && exists i :: 0 <= i < |pairs| && {pairs[i].a, pairs[i].b} == {k as int, o as int})
  {
    hide FoughtAll, Losers, Disjoint;
    o := k;
    LosersAre(ps, pairs);
    if i :| 0 <= i < |pairs| && (pairs[i].a == k || pairs[i].b == k) {
      FoughtSlots(ps, pairs, i);
      assert k !in Loser(ps, pairs[i]);
      if Result(ps, pairs[i]) != 0 {
        o := if pairs[i].a == k then pairs[i].b else pairs[i].a;
        assert o in Loser(ps, pairs[i]);
      }
    } else {
      FoughtUntouched(ps, pairs, k);
    }
  }

  ghost predicate DistinctPlaces(ps: seq<Player>) {
    forall i, j :: i in Alive(ps) && j in Alive(ps) && i != j ==> ps[i].x != ps[j].x || ps[i].y != ps[j].y
  }

  /** Only eligible players lose, and losing is what ends a life. */
  lemma {:induction false} SurvivorsAre(ps: Table, pairs: seq<Pair>, left: seq<int>)
    requires AllInTable(pairs) && Greedy(ps, Eligible(ps), pairs, left)
    ensures Losers(ps, pairs) <= Alive(ps)
    ensures Alive(FoughtAll(ps, pairs)) == Alive(ps) - Losers(ps, pairs)
  {
    hide Greedy, FoughtAll, Losers, Eligible;
    GreedyPartitions(ps, Eligible(ps), pairs, left);
    EligibleAscending(ps);
    LosersAre(ps, pairs);
    forall k | k in Losers(ps, pairs)
      ensures k in Alive(ps)
    {
      var i :| 0 <= i < |pairs| && k in Loser(ps, pairs[i]);
      assert pairs[i].a in Eligible(ps) && pairs[i].b in Eligible(ps);
    }
    forall k: Slot
      ensures k in Alive(FoughtAll(ps, pairs)) <==> k in Alive(ps) && k !in Losers(ps, pairs)
    {
      FoughtSlot(ps, pairs, k);
    }
  }

  /** Fights conserve the tiles. Everybody alive being eligible, the survivors are those alive
      before without one loser for each decisive pair; at least half survive, rounded up; every
      survivor stands where somebody living stood, and if no two stood together none do now. */
  lemma {:induction false} FightsConserve(ps: Table, pairs: seq<Pair>, left: seq<int>)
    requires AllInTable(pairs) && Greedy(ps, Eligible(ps), pairs, left)
    requires forall k :: 0 <= k < MAX_PLAYERS && IsAlive(ps[k]) ==> ps[k].inRound
    ensures var t := FoughtAll(ps, pairs);
            && Alive(t) == Alive(ps) - Losers(ps, pairs) && Losers(ps, pairs) <= Alive(ps)
            && |Alive(t)| == |Alive(ps)| - Decisive(ps, pairs)
            && 2 * |Alive(t)| >= |Alive(ps)|
            && (forall k :: k in Alive(t) ==> exists o :: o in Alive(ps) && t[k].x == ps[o].x && t[k].y == ps[o].y)
            && (DistinctPlaces(ps) ==> DistinctPlaces(t))
  {
    hide Greedy, FoughtAll, Losers, Eligible, Decisive, Alive, DistinctPlaces, Disjoint;
    GreedyPartitions(ps, Eligible(ps), pairs, left);
    LosersCounted(ps, pairs);
    EligibleCounted(ps);
    AliveCounted(ps);
    SurvivorsAre(ps, pairs, left);
    var t := FoughtAll(ps, pairs);
    AliveSlots(ps);
    forall k | k in Alive(t)
      ensures exists o :: o in Alive(ps) && t[k].x == ps[o].x && t[k].y == ps[o].y
    {
      var o := SurvivorPlace(ps, pairs, k);
      assert o in Alive(ps);
    }
    if DistinctPlaces(ps) {
      PlacesStayDistinct(ps, pairs);
    }
  }

  lemma {:induction false} PlacesStayDistinct(ps: Table, pairs: seq<Pair>)
    requires AllInTable(pairs) && Disjoint(pairs) && DistinctPlaces(ps) && Losers(ps, pairs) <= Alive(ps)
    requires Alive(FoughtAll(ps, pairs)) == Alive(ps) - Losers(ps, pairs)
    ensures DistinctPlaces(FoughtAll(ps, pairs))
  {
    hide FoughtAll, Losers, Alive, Disjoint;
    var t := FoughtAll(ps, pairs);
    AliveSlots(ps);
    forall i, j | i in Alive(t) && j in Alive(t) && i != j
      ensures t[i].x != t[j].x || t[i].y != t[j].y
    {
      SurvivorsApart(ps, pairs, i, j);
    }
  }

  lemma AliveSlots(ps: Table)
    ensures forall k :: k in Alive(ps) ==> 0 <= k < MAX_PLAYERS
  {
  }

  lemma {:induction false} SurvivorsApart(ps: Table, pairs: seq<Pair>, i: Slot, j: Slot)
    requires AllInTable(pairs) && Disjoint(pairs) && i != j && i !in Losers(ps, pairs) && j !in Losers(ps, pairs)
    requires DistinctPlaces(ps) && i in Alive(ps) && j in Alive(ps) && Losers(ps, pairs) <= Alive(ps)
    ensures var t := FoughtAll(ps, pairs); t[i].x != t[j].x || t[i].y != t[j].y
  {
    hide FoughtAll, Losers;
    var o := SurvivorPlace(ps, pairs, i);
    var u := SurvivorPlace(ps, pairs, j);
    if o != i && u != j {
      var k :| 0 <= k < |pairs| && {pairs[k].a, pairs[k].b} == {i as int, o as int};
      var l :| 0 <= l < |pairs| && {pairs[l].a, pairs[l].b} == {j as int, u as int};
      if k != l {
        DisjointPair(pairs, k, l);
        assert o in {pairs[k].a, pairs[k].b} && u in {pairs[l].a, pairs[l].b};
      }
    }
    assert o in Alive(ps) && u in Alive(ps);
  }

  lemma SharedSlot(pairs: seq<Pair>, k: nat, l: nat, o: int)
    requires Disjoint(pairs) && k < |pairs| && l < |pairs|
    requires o in {pairs[k].a, pairs[k].b} && o in {pairs[l].a, pairs[l].b}
    ensures k == l
  {
    if k != l {
      DisjointPair(pairs, k, l);
    }
  }

  lemma {:induction false} AliveCounted(ps: seq<Player>)
    ensures |Alive(ps)| == AliveCount(ps)
  {
    if ps != [] {
      var n := |ps| - 1;
      var before := ps[..n];
      assert forall k :: 0 <= k < n ==> before[k] == ps[k];
      AliveCounted(before);
      assert Alive(ps) == Alive(before) + if IsAlive(ps[n]) then {n} else {};
      assert n !in Alive(before);
    } else {
      assert Alive(ps) == {};
    }
  }

  lemma {:induction false} EligibleCounted(ps: seq<Player>)
    requires forall k :: 0 <= k < |ps| && IsAlive(ps[k]) ==> ps[k].inRound
    ensures |Eligible(ps)| == AliveCount(ps)
  {
    if ps != [] {
      assert forall k :: 0 <= k < |ps| - 1 ==> ps[..|ps| - 1][k] == ps[k];
      EligibleCounted(ps[..|ps| - 1]);
    }
  }

  lemma SameChoiceSet(ps: Table)
    ensures AllAliveSameChoice(ps) <==>
            AliveCount(ps) >= 2 && forall i, j :: i in Alive(ps) && j in Alive(ps) ==> ps[i].choice == ps[j].choice
  {
    hide CountIf;
    if AllAliveSameChoice(ps) {
      forall i, j | i in Alive(ps) && j in Alive(ps)
        ensures ps[i].choice == ps[j].choice
      {
        assert i < j || i == j || j < i;
      }
    }
  }

  lemma {:induction false} EligibleFits(ps: seq<Player>)
    ensures |Eligible(ps)| <= |ps|
  {
    if ps != [] {
      EligibleFits(ps[..|ps| - 1]);
    }
  }
}
