/** The repick phase, which an elimination round can enter: what every event of it keeps, nested
    drops included, and what it ends in. */
module Repicks {
  import opened Common
  import opened Text
  import opened Protocol
  import opened Game
  import opened ServerState
  import opened ServerCommands
  import opened ServerInvariant
  import opened ServerRuns
  import opened RunInvariant
  import opened MatchRuns
  import opened Mail
  import Replies
  import Elimination
  import EliminationRounds
  import Pairing

  // ---------------------------------------------------------------- the invariant

  /** A living player that has submitted a repick has submitted a type. */
  ghost predicate RepicksOk(ps: seq<Player>) {
    forall k :: 0 <= k < |ps| && IsAlive(ps[k]) && ps[k].repickSubmitted ==> IsRps(ps[k].repickChoice)
  }

  /** What holds between events of a repick phase. */
  ghost predicate Repicking(s: Server) {
    s.phase == Repick && Records(s) && NobodyWaits(s.players) && RepicksOk(s.players)
  }

  /** A slot that is still connected is the same player, in the same place and with the same
      standing, and holds its old type or, if it had submitted one, its repicked one. */
  ghost predicate Repicked(p: Player, q: Player) {
    q.connected ==>
      && p.connected
      && q == p.(outbuf := q.outbuf, alive := q.alive, waiting := q.waiting, inRound := q.inRound,
                 repickSubmitted := q.repickSubmitted, repickChoice := q.repickChoice, choice := q.choice)
      && (q.alive || q.waiting) == (p.alive || p.waiting)
      && (q.choice == p.choice || (IsAlive(p) && p.repickSubmitted && q.choice == p.repickChoice))
  }

  ghost predicate AllRepicked(s: Server, r: Server) {
    r.nextId == s.nextId && forall k: Slot :: Repicked(s.players[k], r.players[k])
  }

  /** The phase goes on, with every player as it was, or has ended in a round or in the end of the
      match. */
  ghost predicate GoesOn(s: Server, r: Server) {
    if r.phase == Repick then
      Repicking(r) && Kept(s, r)
    else
      Sound(r) && (r.phase == RoundActive || r.phase == GameOver) && AllRepicked(s, r)
  }

  lemma KeptIsRepicked(s: Server, r: Server)
    requires Kept(s, r)
    ensures AllRepicked(s, r)
  {
    forall k: Slot
      ensures Repicked(s.players[k], r.players[k])
    {
      assert Survives(s.players[k], r.players[k]);
    }
  }

  lemma KeptThenRepicked(a: Server, b: Server, c: Server)
    requires Kept(a, b) && AllRepicked(b, c)
    requires forall k: Slot :: b.players[k].connected ==>
               b.players[k].repickSubmitted == a.players[k].repickSubmitted
               && b.players[k].repickChoice == a.players[k].repickChoice && b.players[k].alive == a.players[k].alive
    ensures AllRepicked(a, c)
  {
    forall k: Slot
      ensures Repicked(a.players[k], c.players[k])
    {
      assert Survives(a.players[k], b.players[k]) && Repicked(b.players[k], c.players[k]);
    }
  }

  lemma RepickedThenKept(a: Server, b: Server, c: Server)
    requires AllRepicked(a, b) && Kept(b, c)
    ensures AllRepicked(a, c)
  {
    forall k: Slot
      ensures Repicked(a.players[k], c.players[k])
    {
      assert Repicked(a.players[k], b.players[k]) && Survives(b.players[k], c.players[k]);
    }
  }

  // ---------------------------------------------------------------- pruning

  /** Sending, and giving up who cannot take it, leaves the phase as it is. */
  lemma PrunedRepicking(s: Server, r: Server)
    requires Repicking(s) && r == s.(players := r.players) && Pruned(s.players, r.players)
    ensures Repicking(r) && Kept(s, r) && SameRepicks(s, r)
    ensures Connected(r.players) <= Connected(s.players)
  {
    PrunedKeeps(s, r);
  }

  /** Whoever is still connected has the same flags, and the same repick, as before. */
  ghost predicate SameRepicks(s: Server, r: Server) {
    forall k: Slot :: r.players[k].connected ==>
      && r.players[k].repickSubmitted == s.players[k].repickSubmitted
      && r.players[k].repickChoice == s.players[k].repickChoice && r.players[k].alive == s.players[k].alive
  }

  lemma FewAliveUnanimous(s: Server)
    requires NobodyWaits(s.players) && AliveCount(s.players) <= 1
    ensures Unanimous(s.players)
  {
    CountAtMostOne(s.players, IsAlive);
    hide CountIf;
    assert forall k :: 0 <= k < MAX_PLAYERS && IsWinner(s.players[k]) ==> IsAlive(s.players[k]);
  }

  // ---------------------------------------------------------------- the mutual recursion

  /** One more nested step after another. */
  ghost predicate Chained(s: Server, m: Server, r: Server) {
    && GoesOn(s, m)
    && if m.phase == Repick then SameRepicks(s, m) && GoesOn(m, r) && (r.phase == Repick ==> SameRepicks(m, r))
       else Nested(m, r)
  }

  lemma ChainedGoesOn(s: Server, m: Server, r: Server)
    requires Chained(s, m, r)
    ensures GoesOn(s, r)
    ensures r.phase == Repick ==> SameRepicks(s, r)
  {
    hide Sound, Kept, AllRepicked, Repicking;
    if m.phase != Repick {
      NestedPhase(m, r);
      RepickedThenKept(s, m, r);
    } else if r.phase == Repick {
      SurvivesTransitive(s, m, r);
      SameRepicksTransitive(s, m, r);
    } else {
      KeptThenRepicked(s, m, r);
    }
  }

  lemma SameRepicksTransitive(a: Server, b: Server, c: Server)
    requires SameRepicks(a, b) && SameRepicks(b, c) && Kept(b, c)
    ensures SameRepicks(a, c)
  {
    forall k: Slot | c.players[k].connected
      ensures c.players[k].repickSubmitted == a.players[k].repickSubmitted
      ensures c.players[k].repickChoice == a.players[k].repickChoice && c.players[k].alive == a.players[k].alive
    {
      assert Survives(b.players[k], c.players[k]);
    }
  }

  lemma NestedPhase(m: Server, r: Server)
    requires Nested(m, r) && (m.phase == RoundActive || m.phase == GameOver)
    ensures Sound(r) && Kept(m, r) && (r.phase == RoundActive || r.phase == GameOver)
  {
  }

  lemma {:induction false} BroadcastRepicks(s: Server, line: string, now: nat)
    requires Repicking(s)
    ensures GoesOn(s, Broadcast(s, line, now))
    ensures Broadcast(s, line, now).phase == Repick ==> SameRepicks(s, Broadcast(s, line, now))
    decreases Connected(s.players), 1, 0
  {
    hide Delivered, Repicking, GoesOn;
    var s' := s.(players := MapConnected(s.players, p => Delivered(p, line)));
    BroadcastPrunes(s.players, line);
    PrunedRepicking(s, s');
    PrunedGoesOn(s, s');
    hide MapConnected, Pruned;
    if Connected(s'.players) != Connected(s.players) {
      ReevaluateRepicks(s', now);
      SameRepicksReflexive(s');
      ChainedGoesOn(s, s', Reevaluate(s', now));
    }
  }

  lemma PrunedGoesOn(s: Server, r: Server)
    requires Repicking(r) && Kept(s, r)
    ensures GoesOn(s, r) && r.phase == Repick
  {
  }

  lemma SameRepicksReflexive(s: Server)
    ensures SameRepicks(s, s)
  {
  }

  lemma {:induction false} PositionsRepick(s: Server, n: nat, now: nat)
    requires Repicking(s) && n <= MAX_PLAYERS
    ensures GoesOn(s, PositionsUpTo(s, n, now))
    ensures PositionsUpTo(s, n, now).phase == Repick ==> SameRepicks(s, PositionsUpTo(s, n, now))
    decreases Connected(s.players), 2, n
  {
    hide Repicking, GoesOn, Broadcast, PlayerLine, Nested;
    if n == 0 {
      KeptReflexive(s);
      PrunedGoesOn(s, s);
    } else {
      PositionsRepick(s, n - 1, now);
      var m := PositionsUpTo(s, n - 1, now);
      if IsAdmitted(m.players[n - 1]) {
        NextBroadcast(s, m, PlayerLine(m.players[n - 1]), now);
      }
    }
  }

  lemma KeptReflexive(s: Server)
    requires Records(s) || Repicking(s)
    ensures Kept(s, s)
  {
    forall k | 0 <= k < MAX_PLAYERS
      ensures Survives(s.players[k], s.players[k])
    {
      if s.players[k].connected {
        assert PlayerOk(s.players[k], s.nextId);
      }
    }
  }

  lemma {:induction false} NextBroadcast(s: Server, m: Server, line: string, now: nat)
    requires GoesOn(s, m) && (m.phase == Repick ==> SameRepicks(s, m)) && Connected(m.players) <= Connected(s.players)
    ensures GoesOn(s, Broadcast(m, line, now))
    ensures Broadcast(m, line, now).phase == Repick ==> SameRepicks(s, Broadcast(m, line, now))
    decreases Connected(s.players), 1, 1
  {
    hide Repicking, Broadcast, Nested, Sound, Kept, AllRepicked;
    if m.phase == Repick {
      BroadcastRepicks(m, line, now);
    } else {
      BroadcastSound(m, line, now);
    }
    ChainedGoesOn(s, m, Broadcast(m, line, now));
  }

  /** The table with which the repicks finish. */
  function Taken(s: Server): Server { s.(players := MapConnected(s.players, RepickedPlayer)) }

  lemma TakenSlots(s: Server)
    ensures forall k: Slot :: Taken(s).players[k] == if s.players[k].connected then RepickedPlayer(s.players[k]) else s.players[k]
  {
  }

  lemma TakenHeader(s: Server)
    ensures Taken(s) == s.(players := Taken(s).players)
  {
  }

  lemma TakenRepicking(s: Server)
    requires Repicking(s) && AllAliveRepicked(s.players)
    ensures Repicking(Taken(s)) && Connected(Taken(s).players) == Connected(s.players)
    ensures forall k: Slot :: IsAlive(Taken(s).players[k]) ==> !Taken(s).players[k].repickSubmitted
  {
    var r := Taken(s);
    TakenSlots(s);
    hide CountIf, Taken;
    TakenHeader(s);
    forall k | 0 <= k < MAX_PLAYERS && r.players[k].connected
      ensures PlayerOk(r.players[k], r.nextId) && r.players[k].id == s.players[k].id
      ensures r.players[k].name == s.players[k].name && r.players[k].registered == s.players[k].registered
      ensures !r.players[k].waiting && s.players[k].connected
    {
      assert PlayerOk(s.players[k], s.nextId);
    }
  }

  /** A surviving living player holds the type it submitted; the others hold the one they had. */
  ghost predicate TypesTaken(s: Server, r: Server) {
    forall k: Slot :: r.players[k].connected ==>
      r.players[k].choice == if IsAlive(s.players[k]) then s.players[k].repickChoice else s.players[k].choice
  }

  lemma FinishIs(s: Server, now: nat)
    ensures FinishRepicks(s, now) ==
            StartActiveRound(BroadcastPositions(Broadcast(Taken(s), "REPICK_DONE", now), now), now)
  {
  }

  /** From the table of the repicks on, types are not touched. */
  lemma TakenThenRepicked(s: Server, r: Server)
    requires AllAliveRepicked(s.players) && NobodyWaits(s.players) && AllRepicked(Taken(s), r)
    ensures AllRepicked(s, r) && TypesTaken(s, r)
  {
    TakenSlots(s);
    hide CountIf, Taken;
    TakenHeader(s);
    forall k: Slot
      ensures Repicked(s.players[k], r.players[k])
      ensures r.players[k].connected ==>
        r.players[k].choice == if IsAlive(s.players[k]) then s.players[k].repickChoice else s.players[k].choice
    {
      assert Repicked(Taken(s).players[k], r.players[k]);
    }
  }

  lemma {:induction false} PositionsGoOn(s: Server, m: Server, now: nat)
    requires GoesOn(s, m) && (m.phase == Repick ==> SameRepicks(s, m)) && Connected(m.players) <= Connected(s.players)
    ensures GoesOn(s, BroadcastPositions(m, now))
    decreases Connected(s.players), 3, 0
  {
    hide Repicking, Nested, PositionsUpTo, AllRepicked, Kept, Sound;
    if m.phase == Repick {
      PositionsRepick(m, MAX_PLAYERS, now);
    } else {
      PositionsSound(m, MAX_PLAYERS, now);
    }
    ChainedGoesOn(s, m, BroadcastPositions(m, now));
  }

  lemma GoesOnRecords(s: Server, r: Server)
    requires GoesOn(s, r)
    ensures Records(r) && AllRepicked(s, r)
  {
    if r.phase == Repick {
      KeptIsRepicked(s, r);
    }
  }

  /** Finishing the repicks, whoever is dropped on the way, starts a round or ends the match, and
      gives every surviving living player the type it repicked. */
  lemma {:induction false} FinishRepicksSound(s: Server, now: nat)
    requires Repicking(s) && AllAliveRepicked(s.players)
    ensures var r := FinishRepicks(s, now);
            && Sound(r) && (r.phase == RoundActive || r.phase == GameOver)
            && AllRepicked(s, r) && TypesTaken(s, r)
    decreases Connected(s.players), 5, 0
  {
    var s1 := Taken(s);
    TakenRepicking(s);
    RepickingMeans(s);
    FinishIs(s, now);
    hide Repicking, Broadcast, PositionsUpTo, StartActiveRound, FinishRepicks, Taken, GoesOn, AllAliveRepicked, Kept, Sound, AllRepicked;
    BroadcastRepicks(s1, "REPICK_DONE", now);
    var s2 := Broadcast(s1, "REPICK_DONE", now);
    PositionsGoOn(s1, s2, now);
    var s3 := BroadcastPositions(s2, now);
    GoesOnRecords(s1, s3);
    StartActiveRoundSound(s3, now);
    var r := StartActiveRound(s3, now);
    RepickedThenKept(s1, s3, r);
    TakenThenRepicked(s, r);
  }

  lemma RepickingMeans(s: Server)
    requires Repicking(s)
    ensures s.phase == Repick && Records(s) && NobodyWaits(s.players)
  {
  }

  /** Re-evaluation ends the match with at most one player left, finishes the repicks when all
      living players have submitted, and otherwise changes nothing. */
  lemma {:induction false} ReevaluateRepicks(s: Server, now: nat)
    requires Repicking(s)
    ensures GoesOn(s, Reevaluate(s, now))
    ensures var r := Reevaluate(s, now);
            if AliveCount(s.players) <= 1 then r.phase == GameOver
            else if AllAliveRepicked(s.players) then r.phase != Repick && TypesTaken(s, r)
            else r == s
    decreases Connected(s.players), 6, 0
  {
    hide FinishRepicks, EndGame, CountIf, TypesTaken, AllRepicked;
    if AliveCount(s.players) <= 1 {
      FewAliveUnanimous(s);
      EndGameSound(s);
      KeptIsRepicked(s, EndGame(s));
    } else if AllAliveRepicked(s.players) {
      FinishRepicksSound(s, now);
    } else {
      KeptReflexive(s);
    }
  }

  // ---------------------------------------------------------------- entering the phase

  /** The phase goes on, or has ended in a consistent round or end of the match. */
  ghost predicate Ends(r: Server) {
    Repicking(r) || (Sound(r) && (r.phase == RoundActive || r.phase == GameOver))
  }

  /** `begin_repicks` on any consistent table without waiting players: the phase goes on, or so
      many players are dropped that the match ends. */
  lemma BeginRepicksSound(s: Server, now: nat)
    requires Records(s) && NobodyWaits(s.players)
    ensures Ends(Elimination.BeginRepicks(s, now))
  {
    var s1 := s.(phase := Repick, players := Elimination.MapAll(s.players, Elimination.RepickReset));
    forall k: Slot
      ensures s1.players[k] == Elimination.RepickReset(s.players[k])
      ensures s1.players[k].connected ==>
                PlayerOk(s1.players[k], s1.nextId) && !s1.players[k].waiting && !s1.players[k].repickSubmitted
    {
      assert s.players[k].connected ==> PlayerOk(s.players[k], s.nextId);
    }
    assert Repicking(s1);
    hide Repicking, Broadcast, PositionsUpTo, GoesOn;
    BroadcastRepicks(s1, "REPICK_START", now);
    PositionsGoOn(s1, Broadcast(s1, "REPICK_START", now), now);
    GoesOnEnds(s1, BroadcastPositions(Broadcast(s1, "REPICK_START", now), now));
  }

  /** `resolve_round` keeps the server consistent: from a round, if every buffer takes what the fights
      send, and whoever is dropped after that, it leaves a repick phase, a consistent round, or the
      end of the match. */
  lemma EliminationEnds(s: Server, pairs: seq<Pairing.Pair>, left: seq<int>, bye: int, now: nat)
    requires Sound(s) && s.phase == RoundActive && -1 <= bye < MAX_PLAYERS
    requires Elimination.AllInTable(pairs) && Pairing.Greedy(s.players, Pairing.Eligible(s.players), pairs, left)
    requires EliminationRounds.FightsTaken(s, pairs)
    ensures Ends(Elimination.RoundResolved(s, pairs, bye, now))
  {
    assert Records(s) && NobodyWaits(s.players);
    EliminationRounds.RoundFoughtOk(s, pairs, left, bye, now);
    hide Elimination.RoundFought, Records, StartActiveRound, EndGame, Elimination.BeginRepicks, Repicking, CountIf, Pairing.Greedy;
    var m := Elimination.RoundFought(s, pairs, bye, now);
    if AliveCount(m.players) <= 1 {
      FewAliveUnanimous(m);
      EndGameSound(m);
    } else if AllAliveSameChoice(m.players) {
      BeginRepicksSound(m, now);
    } else {
      StartActiveRoundSound(m, now);
    }
  }

  lemma GoesOnEnds(s: Server, r: Server)
    requires GoesOn(s, r)
    ensures Ends(r)
  {
  }

  // ---------------------------------------------------------------- one event of the phase

  lemma BroadcastEnds(s: Server, line: string, now: nat)
    requires Ends(s)
    ensures Ends(Broadcast(s, line, now))
  {
    hide Broadcast, Records, AllRepicked, Kept;
    if Repicking(s) {
      BroadcastRepicks(s, line, now);
    } else {
      BroadcastSound(s, line, now);
    }
  }

  lemma ReevaluateEnds(s: Server, now: nat)
    requires Ends(s)
    ensures Ends(Reevaluate(s, now))
  {
    hide Reevaluate, Records, AllRepicked, Kept, TypesTaken;
    if Repicking(s) {
      ReevaluateRepicks(s, now);
    } else {
      ReevaluateSound(s, now);
    }
  }

  lemma StateEnds(s: Server, now: nat)
    requires Ends(s)
    ensures Ends(BroadcastGameState(s, now))
  {
    hide SnapshotsUpTo, Reevaluate, Records, Ends;
    if Repicking(s) {
      SnapshotsPrune(s, MAX_PLAYERS, now);
      PrunedRepicking(s, SnapshotsUpTo(s, MAX_PLAYERS, now));
      RepickingEnds(SnapshotsUpTo(s, MAX_PLAYERS, now));
      ReevaluateEnds(SnapshotsUpTo(s, MAX_PLAYERS, now), now);
    } else {
      EndsSound(s);
      BroadcastGameStateSound(s, now);
      NestedPhase(s, BroadcastGameState(s, now));
      SoundEnds(BroadcastGameState(s, now));
    }
  }

  lemma RepickingEnds(s: Server)
    requires Repicking(s)
    ensures Ends(s)
  {
  }

  lemma SoundEnds(s: Server)
    requires Sound(s) && (s.phase == RoundActive || s.phase == GameOver)
    ensures Ends(s)
  {
  }

  lemma EndsSound(s: Server)
    requires Ends(s) && !Repicking(s)
    ensures Sound(s) && (s.phase == RoundActive || s.phase == GameOver)
  {
  }

  lemma ClearedRepicking(s: Server, i: Slot)
    requires Repicking(s)
    ensures Repicking(Cleared(s, i))
  {
    var r := Cleared(s, i);
    ClearedHeader(s, i);
    assert forall k :: 0 <= k < MAX_PLAYERS && k != i ==> r.players[k] == s.players[k];
    ClearedPrunes(s, i);
    hide Cleared;
    PrunedRepicking(s, r);
  }

  lemma ClearedPrunes(s: Server, i: Slot)
    ensures Pruned(s.players, Cleared(s, i).players)
  {
    assert forall k :: 0 <= k < MAX_PLAYERS && k != i ==> Cleared(s, i).players[k] == s.players[k];
  }

  lemma LostEnds(s: Server, i: Slot, now: nat)
    requires Repicking(s)
    ensures Ends(Lost(s, i, now))
  {
    ClearedRepicking(s, i);
    RepickingEnds(s);
    RepickingEnds(Cleared(s, i));
    hide Cleared, Ends, Repicking, Broadcast, BroadcastGameState, Reevaluate;
    var s1 := Cleared(s, i);
    BroadcastEnds(s1, LeftLine(s.players[i].name), now);
    StateEnds(Broadcast(s1, LeftLine(s.players[i].name), now), now);
    ReevaluateEnds(Dropped(s, i, true, now), now);
  }

  lemma GivenUpEnds(s: Server, i: Slot, now: nat)
    requires Repicking(s)
    ensures Ends(Reevaluate(Cleared(s, i), now))
  {
    ClearedRepicking(s, i);
    RepickingEnds(Cleared(s, i));
    hide Cleared, Ends, Repicking, Reevaluate;
    ReevaluateEnds(Cleared(s, i), now);
  }

  /** Changing one slot without touching its standing keeps the phase going. */
  lemma PlayerChangeRepicks(s: Server, i: Slot, p: Player)
    requires Repicking(s) && s.players[i].connected && PlayerOk(p, s.nextId)
    requires var q := s.players[i];
             && p.connected && p.id == q.id && !p.waiting
             && (p.registered && !(q.registered && p.name == q.name) ==> !NameTaken(s.players, p.name))
             && (IsAlive(p) && p.repickSubmitted ==> IsRps(p.repickChoice))
    ensures Repicking(WithPlayer(s, i, p))
  {
    var r := WithPlayer(s, i, p);
    assert forall k :: 0 <= k < MAX_PLAYERS && k != i ==> r.players[k] == s.players[k];
  }

  lemma TellRepicks(s: Server, i: Slot, line: string)
    requires Repicking(s) && s.players[i].connected
    ensures Repicking(Tell(s, i, line))
  {
    hide Told;
    ToldOk(s.players[i], line);
    assert PlayerOk(s.players[i], s.nextId);
    assert PlayerOk(Told(s.players[i], line), s.nextId);
    PlayerChangeRepicks(s, i, Told(s.players[i], line));
  }

  lemma HelloRepicks(s: Server, i: Slot, name: Option<Name>, now: nat)
    requires Repicking(s) && s.players[i].connected
    ensures Repicking(HandleHello(s, i, name, now))
  {
    hide ToldAll, Tell, LobbyStatusLines;
    var p := s.players[i];
    if p.registered || name.None? || NameTaken(s.players, name.value) {
      TellRepicks(s, i, "ERROR already_registered");
      TellRepicks(s, i, "ERROR usage_HELLO_name");
      TellRepicks(s, i, "ERROR duplicate_name");
    } else {
      var q := FreshProgress(p.(name := name.value, registered := true));
      var lines := [WelcomeLine(p.id), "SPECTATING"] + LobbyStatusLines(s, now);
      ToldAllOk(q, lines);
      assert PlayerOk(p, s.nextId);
      assert PlayerOk(ToldAll(q, lines), s.nextId);
      PlayerChangeRepicks(s, i, ToldAll(q, lines));
    }
  }

  /** Outside the lobby a CHOICE or a SPAWN is recorded, and the admission refused. */
  lemma RefusedEnds(s: Server, i: Slot, p: Player, now: nat)
    requires Repicking(s) && s.players[i].connected && PlayerOk(p, s.nextId)
    requires var q := s.players[i];
             && q.registered && !q.admitted
             && p == q.(choice := p.choice, choiceChosen := p.choiceChosen, x := p.x, y := p.y,
                        spawnChosen := p.spawnChosen, outbuf := p.outbuf)
    ensures Ends(MaybeAdmit(WithPlayer(s, i, p), i, now))
  {
    var s1 := WithPlayer(s, i, p);
    assert PlayerOk(s.players[i], s.nextId);
    PlayerChangeRepicks(s, i, p);
    hide Ends, Cleared, Reevaluate, Repicking;
    RepickingMeans(s1);
    RepickingEnds(s1);
    if Enqueued(p.outbuf, "ERROR lobby_closed").None? {
      GivenUpEnds(s1, i, now);
    } else {
      var outbuf := Enqueued(p.outbuf, "ERROR lobby_closed").value;
      assert PlayerOk(p.(outbuf := outbuf), s.nextId);
      PlayerChangeRepicks(s1, i, p.(outbuf := outbuf));
      RepickingEnds(WithPlayer(s1, i, p.(outbuf := outbuf)));
    }
  }

  lemma ChooseEnds(s: Server, i: Slot, arg: Option<string>, now: nat)
    requires Repicking(s) && s.players[i].connected
    ensures Ends(HandleChoose(s, i, arg, now))
  {
    hide Tell, MaybeAdmit, Told;
    TellRepicks(s, i, "ERROR register_first");
    TellRepicks(s, i, "ERROR already_joined");
    TellRepicks(s, i, "ERROR bad_choice");
    var p := s.players[i];
    if p.registered && !p.admitted && ParseChoice(arg).Some? {
      var c := ParseChoice(arg).value;
      var q := p.(choice := c, choiceChosen := true);
      ToldOk(q, ChoiceOkLine(c));
      assert PlayerOk(p, s.nextId);
      assert PlayerOk(Told(q, ChoiceOkLine(c)), s.nextId);
      RefusedEnds(s, i, Told(q, ChoiceOkLine(c)), now);
    }
  }

  lemma SpawnEnds(s: Server, i: Slot, at: Option<(real, real)>, now: nat)
    requires Repicking(s) && s.players[i].connected
    ensures Ends(HandleSpawn(s, i, at, now))
  {
    hide Tell, MaybeAdmit, Told, SpawnTaken;
    TellRepicks(s, i, "ERROR register_first");
    TellRepicks(s, i, "ERROR already_joined");
    TellRepicks(s, i, "ERROR usage_SPAWN_x_y");
    TellRepicks(s, i, "ERROR bad_spawn");
    TellRepicks(s, i, "ERROR spawn_taken");
    var p := s.players[i];
    if p.registered && !p.admitted && at.Some? && InBox(at.value.0, at.value.1) {
      var (x, y) := at.value;
      var q := p.(x := x, y := y, spawnChosen := true);
      ToldOk(q, SpawnOkLine(x, y));
      assert PlayerOk(p, s.nextId);
      assert PlayerOk(Told(q, SpawnOkLine(x, y)), s.nextId);
      RefusedEnds(s, i, Told(q, SpawnOkLine(x, y)), now);
    }
  }

  /** The state in which a repick has been recorded and confirmed. */
  function Submitted(s: Server, i: Slot, c: char): Server {
    WithPlayer(s, i, Told(s.players[i].(repickChoice := c, repickSubmitted := true), RepickOkLine(c)))
  }

  lemma SubmittedRepicks(s: Server, i: Slot, c: char)
    requires Repicking(s) && IsAlive(s.players[i]) && IsRps(c)
    ensures Repicking(Submitted(s, i, c))
    ensures Submitted(s, i, c) == s.(players := s.players[i := Submitted(s, i, c).players[i]])
    ensures var p, q := s.players[i], Submitted(s, i, c).players[i];
            q == p.(repickChoice := c, repickSubmitted := true, outbuf := q.outbuf)
  {
    hide Told;
    var q := s.players[i].(repickChoice := c, repickSubmitted := true);
    ToldOk(q, RepickOkLine(c));
    assert PlayerOk(s.players[i], s.nextId);
    assert PlayerOk(Told(q, RepickOkLine(c)), s.nextId);
    PlayerChangeRepicks(s, i, Told(q, RepickOkLine(c)));
  }

  /** An accepted repick is recorded for its player and changes nobody else, and the phase goes on;
      unless it was the last one missing: then the repicks finish, and every surviving living player
      holds the type that it submitted. */
  lemma PickAgainDecides(s: Server, i: Slot, arg: string, c: char, now: nat)
    requires Repicking(s) && IsAlive(s.players[i]) && !s.players[i].repickSubmitted && NamesType(arg, c)
    ensures var r := HandlePickAgain(s, i, Some(arg), now);
            if forall k: Slot :: k != i && IsAlive(s.players[k]) ==> s.players[k].repickSubmitted then
              && Sound(r) && (r.phase == RoundActive || r.phase == GameOver)
              && (r.players[i].connected ==> r.players[i].choice == c)
              && forall k: Slot :: k != i && r.players[k].connected ==>
                   r.players[k].choice == if IsAlive(s.players[k]) then s.players[k].repickChoice else s.players[k].choice
            else
              && Repicking(r)
              && r.players[i] == s.players[i].(repickChoice := c, repickSubmitted := true, outbuf := r.players[i].outbuf)
              && forall k: Slot :: k != i ==> r.players[k] == s.players[k]
  {
    assert ParseChoice(Some(arg)) == Some(c);
    PickAgainIs(s, i, arg, now);
    SubmittedRepicks(s, i, c);
    LastMissing(s, i, c);
    var s1 := Submitted(s, i, c);
    RepickingMeans(s1);
    hide ParseChoice, FinishRepicks, HandlePickAgain, Told, TypesTaken, Repicking, AllRepicked, AllAliveRepicked, Submitted, Sound;
    if AllAliveRepicked(s1.players) {
      FinishRepicksSound(s1, now);
      TypesTakenSlots(s1, FinishRepicks(s1, now));
      OthersSame(s, s1, i);
    } else {
      TellRepicks(s1, i, "REPICK_WAITING");
      ToldOk(s1.players[i], "REPICK_WAITING");
    }
  }

  /** As long as somebody is missing, the player is told that its repick counts and that it has to wait. */
  lemma RepickIsConfirmed(s: Server, i: Slot, arg: string, c: char, now: nat)
    requires s.phase == Repick && IsAlive(s.players[i]) && !s.players[i].repickSubmitted && NamesType(arg, c)
    requires exists k: Slot :: k != i && IsAlive(s.players[k]) && !s.players[k].repickSubmitted
    ensures HandlePickAgain(s, i, Some(arg), now).players[i].outbuf ==
            Replies.Offered(s.players[i].outbuf, ["REPICK_OK " + [c], "REPICK_WAITING"])
  {
    assert ParseChoice(Some(arg)) == Some(c);
    PickAgainIs(s, i, arg, now);
    LastMissing(s, i, c);
    var q := s.players[i].(repickChoice := c, repickSubmitted := true);
    var lines := ["REPICK_OK " + [c], "REPICK_WAITING"];
    Replies.ToldAllOffers(q, lines);
    assert lines[1..] == ["REPICK_WAITING"] && lines[1..][1..] == [];
    var q1 := Told(q, lines[0]);
    hide Told, FinishRepicks, HandlePickAgain, ParseChoice, Replies.Offered, AllAliveRepicked;
    assert ToldAll(q, lines) == ToldAll(q1, lines[1..]);
    assert ToldAll(q1, lines[1..]) == ToldAll(Told(q1, "REPICK_WAITING"), []);
  }

  /** The table in which the repicks have been taken over. */
  function TakenOver(s: Server): Server { s.(players := MapConnected(s.players, RepickedPlayer)) }

  /** The end of the repicks, exactly: everybody is sent the news of it, the positions, and the start of
      the next round with the positions in it. */
  lemma FinishRepicksSends(s: Server, now: nat)
    ensures var t := StartRound(TakenOver(s), now);
            Sends(t, FinishRepicks(s, now),
                  Then(ToAll(["REPICK_DONE"] + PlayerLines(TakenOver(s).players)), ToAll(StartLines(s.roundNo + 1, t.players))))
  {
    var s1 := TakenOver(s);
    var m := BroadcastPositions(Broadcast(s1, "REPICK_DONE", now), now);
    LineAndPositionsSend(s1, "REPICK_DONE", now);
    assert FinishRepicks(s, now) == StartActiveRound(m, now);
    hide Sends, Broadcast, BroadcastPositions, PlayerLines, ToAll, StartActiveRound, StartRound, StartLines, Connected, TakenOver;
    StartFrom(s1, m, ToAll(["REPICK_DONE"] + PlayerLines(s1.players)), StartActiveRound(m, now), now);
    assert s1.roundNo == s.roundNo by { TakenOverHeader(s); }
  }

  lemma TakenOverHeader(s: Server)
    ensures TakenOver(s) == s.(players := TakenOver(s).players)
  {
  }

  lemma OthersSame(s: Server, s1: Server, i: Slot)
    requires s1.players == s.players[i := s1.players[i]]
    ensures forall k: Slot :: k != i ==> s1.players[k] == s.players[k]
  {
  }

  /** A submitted repick is the last one missing exactly when all other living players have repicked. */
  lemma LastMissing(s: Server, i: Slot, c: char)
    requires IsAlive(s.players[i])
    ensures AllAliveRepicked(Submitted(s, i, c).players) <==>
            forall k: Slot :: k != i && IsAlive(s.players[k]) ==> s.players[k].repickSubmitted
  {
    hide Told;
    var q := s.players[i].(repickChoice := c, repickSubmitted := true);
    ToldOk(q, RepickOkLine(c));
    var s1 := Submitted(s, i, c);
    SomebodyAlive(s1, i);
    hide AllAliveRepicked, Submitted;
    OthersSame(s, s1, i);
  }

  lemma PickAgainIs(s: Server, i: Slot, arg: string, now: nat)
    requires s.phase == Repick && IsAlive(s.players[i]) && !s.players[i].repickSubmitted && ParseChoice(Some(arg)).Some?
    ensures var s1 := Submitted(s, i, ParseChoice(Some(arg)).value);
            HandlePickAgain(s, i, Some(arg), now) ==
            if AllAliveRepicked(s1.players) then FinishRepicks(s1, now) else Tell(s1, i, "REPICK_WAITING")
  {
    hide ParseChoice, FinishRepicks, Told, AllAliveRepicked;
  }

  lemma SomebodyAlive(s: Server, i: Slot)
    requires IsAlive(s.players[i])
    ensures AllAliveRepicked(s.players) <==> forall k: Slot :: IsAlive(s.players[k]) ==> s.players[k].repickSubmitted
  {
    CountZeroIff(s.players, IsAlive);
    hide CountIf;
  }

  lemma TypesTakenSlots(s: Server, r: Server)
    requires TypesTaken(s, r)
    ensures forall k: Slot :: r.players[k].connected ==>
              r.players[k].choice == if IsAlive(s.players[k]) then s.players[k].repickChoice else s.players[k].choice
  {
  }

  lemma PickAgainEnds(s: Server, i: Slot, arg: Option<string>, now: nat)
    requires Repicking(s) && s.players[i].connected
    ensures Ends(HandlePickAgain(s, i, arg, now))
  {
    hide Tell, Told, FinishRepicks, AllAliveRepicked;
    TellRepicks(s, i, "ERROR not_alive");
    TellRepicks(s, i, "ERROR already_repicked");
    TellRepicks(s, i, "ERROR bad_choice");
    var p := s.players[i];
    if p.registered && p.admitted && p.alive && !p.repickSubmitted && ParseChoice(arg).Some? {
      PickAgainDecides(s, i, arg.value, ParseChoice(arg).value, now);
    }
  }

  lemma GetStateEnds(s: Server, i: Slot, now: nat)
    requires Repicking(s) && s.players[i].connected
    ensures Ends(HandleGetState(s, i, now))
  {
    hide Cleared, Reevaluate, EnqueuedAll, SnapshotLines;
    var p := s.players[i];
    EnqueuedAllGrows(p.outbuf, SnapshotLines(s, p, now));
    match EnqueuedAll(p.outbuf, SnapshotLines(s, p, now))
    case None => GivenUpEnds(s, i, now);
    case Some(outbuf) =>
      assert PlayerOk(p, s.nextId);
      assert PlayerOk(p.(outbuf := outbuf), s.nextId);
      PlayerChangeRepicks(s, i, p.(outbuf := outbuf));
  }

  lemma CommandEnds(s: Server, i: Slot, c: Command, now: nat)
    requires Repicking(s) && s.players[i].connected
    ensures Ends(HandleCommand(s, i, c, now))
  {
    RepickingMeans(s);
    hide Repicking, Sound, HandleHello, HandleChoose, HandleSpawn, HandlePickAgain, HandleGetState, Tell, Dropped, Reevaluate;
    match c
    case Unknown => TellRepicks(s, i, "ERROR bad_command");
    case Hello(name) => HelloRepicks(s, i, name, now);
    case Choose(arg) => ChooseEnds(s, i, arg, now);
    case Spawn(at) => SpawnEnds(s, i, at, now);
    case PickAgain(arg) => PickAgainEnds(s, i, arg, now);
    case GetState => GetStateEnds(s, i, now);
    case Rematch => TellRepicks(s, i, "ERROR rematch_not_available");
    case Quit => LostEnds(s, i, now);
  }

  lemma AcceptRepicks(s: Server)
    requires Repicking(s)
    ensures Repicking(Accepted(s))
  {
    AcceptedRecords(s);
    hide Accepted, FreeSlot;
  }

  lemma FlushingEnds(s: Server, i: Slot, sends: seq<SendResult>, now: nat)
    requires Repicking(s) && s.players[i].connected
    ensures Ends(Flushing(s, i, sends, now))
  {
    hide Lost;
    var p := s.players[i];
    var (sent, outcome) := FlushCount(|p.outbuf|, sends);
    var q := p.(outbuf := p.outbuf[sent..]);
    assert PlayerOk(p, s.nextId);
    assert PlayerOk(q, s.nextId);
    PlayerChangeRepicks(s, i, q);
    hide Repicking;
    if outcome == Broken {
      LostEnds(WithPlayer(s, i, q), i, now);
    }
  }

  /** Whatever event comes, a repick phase goes on or ends in a state that satisfies the invariant
      of runs. */
  lemma RepickStep(w: World, e: Event, root: real -> real)
    requires Repicking(w.server)
    ensures Repicking(Step(w, e, root).server) || Inv(Step(w, e, root).server)
  {
    var s := w.server;
    RepickingMeans(s);
    RepickingEnds(s);
    hide Repicking, Sound, HandleCommand, Accepted, Flushing, Lost, Chasing;
    match e
    case Accept => AcceptRepicks(s);
    case ReadFailure(i, now) => if s.players[i].connected { LostEnds(s, i, now); }
    case Line(i, c, now) => if s.players[i].connected { CommandEnds(s, i, c, now); }
    case Write(i, sends, now) => if s.players[i].connected { FlushingEnds(s, i, sends, now); }
    case Timer(now, clock) =>
  }

  /** So any run from a repick phase stays consistent to its end. */
  lemma {:induction false} RepickRun(w: World, events: seq<Event>, root: real -> real)
    requires Repicking(w.server) || Inv(w.server)
    ensures Repicking(Run(w, events, root).server) || Inv(Run(w, events, root).server)
    decreases |events|
  {
    hide Inv, Step, Repicking;
    if events != [] {
      var n := |events| - 1;
      RepickRun(w, events[..n], root);
      var m := Run(w, events[..n], root);
      if Repicking(m.server) {
        RepickStep(m, events[n], root);
      } else {
        StepKeepsInv(m, events[n], root);
      }
    }
  }
}
