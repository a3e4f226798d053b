/** Counters, readiness tests and round set-up over the player table (src/game.c). */
module Game {
  import opened Common

  function AdmittedCount(ps: seq<Player>): nat { CountIf(ps, IsAdmitted) }

  function AliveCount(ps: seq<Player>): nat { CountIf(ps, IsAlive) }

  predicate IsReady(p: Player) { p.choiceChosen && p.spawnChosen }

  predicate AllAdmittedReady(ps: seq<Player>) {
    && (forall k :: 0 <= k < |ps| && IsAdmitted(ps[k]) ==> IsReady(ps[k]))
    && AdmittedCount(ps) >= 2
  }

  predicate AllAliveRepicked(ps: seq<Player>) {
    && (forall k :: 0 <= k < |ps| && IsAlive(ps[k]) ==> ps[k].repickSubmitted)
    && AliveCount(ps) > 0
  }

  predicate AllAliveSameChoice(ps: seq<Player>) {
    && (forall i, j :: 0 <= i < j < |ps| && IsAlive(ps[i]) && IsAlive(ps[j]) ==> ps[i].choice == ps[j].choice)
    && AliveCount(ps) >= 2
  }

  predicate HasType(ps: seq<Player>, c: char) {
    exists k :: 0 <= k < |ps| && IsAlive(ps[k]) && ps[k].choice == c
  }

  /** How many of the three types have a living player. */
  function TypesAlive(ps: seq<Player>): nat {
    (if HasType(ps, 'R') then 1 else 0) + (if HasType(ps, 'P') then 1 else 0) + (if HasType(ps, 'S') then 1 else 0)
  }

  function StartedPlayer(p: Player): Player {
    var q := p.(inRound := false, repickSubmitted := false, repickChoice := '\0');
    if IsWinner(q) then q.(alive := true, waiting := false, inRound := true) else q
  }

  function StartRound(s: Server, now: nat): Server {
    s.(phase := RoundActive, roundNo := s.roundNo + 1, roundDeadline := now + ROUND_SECONDS,
       players := seq(MAX_PLAYERS, k requires 0 <= k < MAX_PLAYERS => StartedPlayer(s.players[k])))
  }

  /** 1 when `a` beats `b`, -1 when it does not and they differ, 0 when they are equal. */
  function RpsResult(a: char, b: char): int {
    if a == b then 0
    else if (a == 'R' && b == 'S') || (a == 'S' && b == 'P') || (a == 'P' && b == 'R') then 1
    else -1
  }

  /** With valid choices, fewer than two types alive means that all living players agree. */
  lemma OneTypeMeansUnanimous(ps: seq<Player>)
    requires forall k :: 0 <= k < |ps| && IsAlive(ps[k]) ==> IsRps(ps[k].choice)
    ensures TypesAlive(ps) <= 1 <==>
            forall i, j :: 0 <= i < |ps| && 0 <= j < |ps| && IsAlive(ps[i]) && IsAlive(ps[j]) ==> ps[i].choice == ps[j].choice
  {
    if TypesAlive(ps) <= 1 {
      forall i, j | 0 <= i < |ps| && 0 <= j < |ps| && IsAlive(ps[i]) && IsAlive(ps[j])
        ensures ps[i].choice == ps[j].choice
      {
        assert HasType(ps, ps[i].choice) && HasType(ps, ps[j].choice);
      }
    } else {
      var c, d :| c != d && HasType(ps, c) && HasType(ps, d);
    }
  }

  /** At most one living player means at most one type. */
  lemma FewAliveMeansOneType(ps: seq<Player>)
    requires AliveCount(ps) <= 1
    ensures TypesAlive(ps) <= 1
  {
    CountAtMostOne(ps, IsAlive);
  }

  method CountAdmitted(players: array<Player>) returns (count: nat)
    ensures count == AdmittedCount(players[..])
  {
    count := 0;
    for i := 0 to players.Length
      invariant count == AdmittedCount(players[..i])
    {
      CountNext(players[..], IsAdmitted, i);
      assert players[..][..i] == players[..i] && players[..][..i + 1] == players[..i + 1];
      if IsAdmitted(players[i]) {
        count := count + 1;
      }
    }
    assert players[..players.Length] == players[..];
  }

  method CountAlive(players: array<Player>) returns (count: nat)
    ensures count == AliveCount(players[..])
  {
    count := 0;
    for i := 0 to players.Length
      invariant count == AliveCount(players[..i])
    {
      CountNext(players[..], IsAlive, i);
      assert players[..][..i] == players[..i] && players[..][..i + 1] == players[..i + 1];
      if IsAlive(players[i]) {
        count := count + 1;
      }
    }
    assert players[..players.Length] == players[..];
  }

  method CheckAllAdmittedReady(players: array<Player>) returns (ready: bool)
    ensures ready == AllAdmittedReady(players[..])
  {
    var count := 0;
    for i := 0 to players.Length
      invariant count == AdmittedCount(players[..i])
      invariant forall k :: 0 <= k < i && IsAdmitted(players[k]) ==> IsReady(players[k])
    {
      CountNext(players[..], IsAdmitted, i);
      assert players[..][..i] == players[..i] && players[..][..i + 1] == players[..i + 1];
      if IsAdmitted(players[i]) {
        count := count + 1;
        if !players[i].choiceChosen || !players[i].spawnChosen {
          assert IsAdmitted(players[..][i]) && !IsReady(players[..][i]);
          return false;
        }
      }
    }
    assert players[..players.Length] == players[..];
    return count >= 2;
  }

  method CheckAllAliveRepicked(players: array<Player>) returns (done: bool)
    ensures done == AllAliveRepicked(players[..])
  {
    var alive := 0;
    for i := 0 to players.Length
      invariant alive == AliveCount(players[..i])
      invariant forall k :: 0 <= k < i && IsAlive(players[k]) ==> players[k].repickSubmitted
    {
      CountNext(players[..], IsAlive, i);
      assert players[..][..i] == players[..i] && players[..][..i + 1] == players[..i + 1];
      if IsAlive(players[i]) {
        alive := alive + 1;
        if !players[i].repickSubmitted {
          assert IsAlive(players[..][i]) && !players[..][i].repickSubmitted;
          return false;
        }
      }
    }
    assert players[..players.Length] == players[..];
    return alive > 0;
  }

  method CheckAllAliveSameChoice(players: array<Player>) returns (same: bool)
    ensures same == AllAliveSameChoice(players[..])
  {
    var first, seen := '\0', false;
    ghost var w := 0;
    for i := 0 to players.Length
      invariant !seen ==> forall k :: 0 <= k < i ==> !IsAlive(players[k])
      invariant seen ==> 0 <= w < i && IsAlive(players[w]) && players[w].choice == first
      invariant seen ==> forall k :: 0 <= k < i && IsAlive(players[k]) ==> w <= k && players[k].choice == first
    {
      if IsAlive(players[i]) {
        if !seen {
          first, seen, w := players[i].choice, true, i;
        } else if players[i].choice != first {
          assert players[..][i].choice != players[..][w].choice;
          return false;
        }
      }
    }
    CountZeroIff(players[..], IsAlive);
    var alive := CountAlive(players);
    return seen && alive >= 2;
  }
}
