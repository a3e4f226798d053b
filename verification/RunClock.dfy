/** Deadlines and round numbers over runs: with a clock of 64 bits they stay machine words, so the
    size bound of snapshots holds in every reachable state. */
module RunClock {
  import opened Common
  import opened Text
  import opened Protocol
  import opened Game
  import opened Chase
  import opened ServerState
  import opened ServerCommands
  import opened ServerInvariant
  import opened ServerRuns
  import opened RunInvariant
  import opened MatchRuns
  import opened SnapshotText

  /** What happens to deadlines and round number at time `now`: only leaving the setup phase starts
      a round, and only an admission starts the lobby timer. */
  predicate Follows(s: Server, r: Server, now: nat) {
    && r.phase != Repick
    && (r.joinDeadline == s.joinDeadline || r.joinDeadline == 0 || r.joinDeadline == now + JOIN_WINDOW_SECONDS)
    && r.setupDeadline == s.setupDeadline
    && (r.roundDeadline == s.roundDeadline || r.roundDeadline == now + ROUND_SECONDS)
    && (r.roundNo == s.roundNo || (s.phase == Setup && r.phase != Setup && r.roundNo == s.roundNo + 1))
    && (s.phase != Setup ==> r.phase != Setup)
  }

  /** The same, apart from the round number, when a round is started from whatever phase. */
  predicate Starts(s: Server, r: Server, now: nat) {
    && (r.phase == RoundActive || r.phase == GameOver)
    && (r.joinDeadline == s.joinDeadline || r.joinDeadline == 0 || r.joinDeadline == now + JOIN_WINDOW_SECONDS)
    && r.setupDeadline == s.setupDeadline
    && r.roundDeadline == now + ROUND_SECONDS
    && r.roundNo == s.roundNo + 1
  }

  lemma FollowsTransitive(a: Server, b: Server, c: Server, now: nat)
    requires Follows(a, b, now) && Follows(b, c, now)
    ensures Follows(a, c, now)
  {
  }

  // ---------------------------------------------------------------- the recursion

  lemma {:induction false} BroadcastFollows(s: Server, line: string, now: nat)
    requires s.phase != Repick
    ensures Follows(s, Broadcast(s, line, now), now)
    ensures s.phase == RoundActive ==> Broadcast(s, line, now).phase == RoundActive || Broadcast(s, line, now).phase == GameOver
    decreases Connected(s.players), 1, 0
  {
    hide Delivered;
    var s' := s.(players := MapConnected(s.players, p => Delivered(p, line)));
    if Connected(s'.players) != Connected(s.players) {
      assert Connected(s'.players) < Connected(s.players) by { BroadcastShrinks(s, line); }
      ReevaluateFollows(s', now);
    }
  }

  lemma BroadcastShrinks(s: Server, line: string)
    ensures Connected(MapConnected(s.players, p => Delivered(p, line))) <= Connected(s.players)
  {
  }

  lemma {:induction false} PositionsFollow(s: Server, n: nat, now: nat)
    requires s.phase != Repick && n <= MAX_PLAYERS
    ensures var r := PositionsUpTo(s, n, now);
            Follows(s, r, now) && (s.phase == RoundActive ==> r.phase == RoundActive || r.phase == GameOver)
    ensures s.phase == GameOver ==> PositionsUpTo(s, n, now).phase == GameOver
    decreases Connected(s.players), 2, n
  {
    hide Broadcast, PlayerLine;
    if n > 0 {
      PositionsFollow(s, n - 1, now);
      var m := PositionsUpTo(s, n - 1, now);
      if IsAdmitted(m.players[n - 1]) {
        var line := PlayerLine(m.players[n - 1]);
        BroadcastFollows(m, line, now);
        GameOverStays(m, line, now);
        FollowsTransitive(s, m, Broadcast(m, line, now), now);
      }
    }
  }

  lemma GameOverStays(s: Server, line: string, now: nat)
    ensures s.phase == GameOver ==> Broadcast(s, line, now).phase == GameOver
  {
  }

  lemma {:induction false} StartActiveRoundStarts(s: Server, now: nat)
    ensures Starts(s, StartActiveRound(s, now), now)
    decreases Connected(s.players), 4, 0
  {
    hide Broadcast, PositionsUpTo;
    var s1 := StartRound(s, now);
    assert Connected(s1.players) == Connected(s.players);
    var line := RoundStartLine(s1.roundNo, ROUND_SECONDS);
    BroadcastFollows(s1, line, now);
    PositionsFollow(Broadcast(s1, line, now), MAX_PLAYERS, now);
  }

  lemma {:induction false} ReevaluateFollows(s: Server, now: nat)
    requires s.phase != Repick
    ensures Follows(s, Reevaluate(s, now), now)
    ensures s.phase == RoundActive ==> Reevaluate(s, now).phase == RoundActive || Reevaluate(s, now).phase == GameOver
    decreases Connected(s.players), 6, 0
  {
    hide StartActiveRound, CountIf, TypesAlive, MapConnected;
    if s.phase == Setup && AdmittedCount(s.players) >= 2 && AllAdmittedReady(s.players) {
      StartActiveRoundStarts(s, now);
    }
  }

  // ---------------------------------------------------------------- operations

  lemma BroadcastGameStateFollows(s: Server, now: nat)
    requires s.phase != Repick
    ensures Follows(s, BroadcastGameState(s, now), now)
  {
    hide SnapshotsUpTo, Reevaluate;
    SnapshotsPrune(s, MAX_PLAYERS, now);
    ReevaluateFollows(SnapshotsUpTo(s, MAX_PLAYERS, now), now);
  }

  lemma AnnouncedFollows(s: Server, line: string, now: nat)
    requires s.phase != Repick
    ensures Follows(s, BroadcastGameState(Broadcast(s, line, now), now), now)
  {
    hide Broadcast, BroadcastGameState;
    BroadcastFollows(s, line, now);
    BroadcastGameStateFollows(Broadcast(s, line, now), now);
    FollowsTransitive(s, Broadcast(s, line, now), BroadcastGameState(Broadcast(s, line, now), now), now);
  }

  lemma LostFollows(s: Server, i: Slot, now: nat)
    requires s.phase != Repick
    ensures Follows(s, Lost(s, i, now), now)
  {
    hide Broadcast, BroadcastGameState, Reevaluate;
    var p := s.players[i];
    var s1 := Cleared(s, i);
    if p.connected && p.registered {
      AnnouncedFollows(s1, LeftLine(p.name), now);
    }
    var s2 := Dropped(s, i, true, now);
    assert Follows(s, s2, now);
    ReevaluateFollows(s2, now);
    FollowsTransitive(s, s2, Reevaluate(s2, now), now);
  }

  lemma ClearedFollows(s: Server, i: Slot, now: nat)
    requires s.phase != Repick
    ensures Follows(s, Reevaluate(Cleared(s, i), now), now)
  {
    hide Reevaluate;
    ReevaluateFollows(Cleared(s, i), now);
  }

  lemma RefusedFollows(s: Server, i: Slot, now: nat)
    requires s.phase != Repick
    ensures Follows(s, Refused(s, i, now), now)
  {
    hide Reevaluate, Cleared;
    ClearedFollows(s, i, now);
  }

  lemma AdmittedFollows(s: Server, i: Slot, now: nat)
    requires s.phase != Repick
    ensures Follows(s, Admitted(s, i, now), now)
  {
    hide Broadcast, BroadcastGameState, Reevaluate, Cleared;
    var p := s.players[i].(admitted := true, waiting := true);
    match Enqueued(p.outbuf, "JOINED_MATCH")
    case None =>
      ClearedFollows(WithPlayer(s, i, p), i, now);
    case Some(outbuf) =>
      AnnouncedFollows(WithPlayer(s, i, p.(outbuf := outbuf)), JoinedLine(p.name), now);
  }

  lemma MaybeAdmitFollows(s: Server, i: Slot, now: nat)
    requires s.phase != Repick
    ensures Follows(s, MaybeAdmit(s, i, now), now)
  {
    hide Broadcast, Admitted, Refused;
    RefusedFollows(s, i, now);
    AdmittedFollows(s, i, now);
    if s.phase == LobbyOpen {
      var s0 := s.(joinDeadline := now + JOIN_WINDOW_SECONDS);
      var line := LobbyOpenLine(JOIN_WINDOW_SECONDS);
      BroadcastFollows(s0, line, now);
      AdmittedFollows(Broadcast(s0, line, now), i, now);
      FollowsTransitive(s, Broadcast(s0, line, now), Admitted(Broadcast(s0, line, now), i, now), now);
    }
  }

  lemma CommandFollows(s: Server, i: Slot, c: Command, now: nat)
    requires s.phase != Repick && !(c.Rematch? && s.phase == GameOver)
    ensures Follows(s, HandleCommand(s, i, c, now), now)
  {
    hide MaybeAdmit, Reevaluate, Dropped, Cleared, FinishRepicks, Told, ToldAll, NameTaken, SpawnTaken, ParseChoice;
    match c
    case Unknown =>
    case Hello(name) =>
    case Choose(arg) =>
      if ParseChoice(arg).Some? {
        var p := s.players[i].(choice := ParseChoice(arg).value, choiceChosen := true);
        MaybeAdmitFollows(WithPlayer(s, i, Told(p, ChoiceOkLine(ParseChoice(arg).value))), i, now);
      }
    case Spawn(at) =>
      if at.Some? {
        var (x, y) := at.value;
        MaybeAdmitFollows(
          WithPlayer(s, i, Told(s.players[i].(x := x, y := y, spawnChosen := true), SpawnOkLine(x, y))), i, now);
      }
    case PickAgain(arg) =>
    case GetState => ClearedFollows(s, i, now);
    case Rematch =>
    case Quit => LostFollows(s, i, now);
  }

  // ---------------------------------------------------------------- runs

  /** Deadlines at most an admission window behind the latest time; and few rounds are started in
      one match, all of them while its lobby closes. */
  predicate Clocked(s: Server, limit: nat) {
    && 0 <= s.joinDeadline <= limit + JOIN_WINDOW_SECONDS
    && 0 <= s.setupDeadline <= limit + JOIN_WINDOW_SECONDS
    && 0 <= s.roundDeadline <= limit + JOIN_WINDOW_SECONDS
    && 0 <= s.roundNo <= 2
    && (s.phase == LobbyOpen ==> s.roundNo == 0)
  }

  function EventTime(e: Event): nat {
    match e
    case Accept => 0
    case ReadFailure(_, now) => now
    case Line(_, _, now) => now
    case Write(_, _, now) => now
    case Timer(now, _) => now
  }

  lemma FollowsClocked(s: Server, r: Server, now: nat, limit: nat)
    requires Clocked(s, limit) && now <= limit && Follows(s, r, now) && s.phase != Setup
    requires r.phase == LobbyOpen ==> s.phase == LobbyOpen
    ensures Clocked(r, limit)
  {
  }

  /** Closing the lobby starts at most two rounds: one nested in its broadcasts, one after them. */
  lemma CloseLobbyClocked(s: Server, now: nat, limit: nat)
    requires Clocked(s, limit) && now <= limit && Inv(s)
    ensures Clocked(CloseLobby(s, now), limit)
  {
    hide Broadcast, StartActiveRound, Inv, CountIf, MapConnected;
    CloseLobbySettles(s, now);
    if LobbyIsOver(s, now) {
      var s0 := s.(phase := Setup, setupDeadline := now + SETUP_SECONDS);
      BroadcastFollows(s0, "LOBBY_CLOSED", now);
      var s1 := Broadcast(s0, "LOBBY_CLOSED", now);
      var line := SetupOpenLine(SETUP_SECONDS);
      BroadcastFollows(s1, line, now);
      var s2 := Broadcast(s1, line, now);
      FollowsTransitive(s0, s1, s2, now);
      StartActiveRoundStarts(s2, now);
      BroadcastFollows(s2, "WAITING_FOR_OTHERS", now);
    }
  }

  lemma ChasingFollows(s: Server, now: nat, root: real -> real)
    requires s.phase == RoundActive
    ensures Follows(s, Chasing(s, now, root), now)
  {
    hide Tick, PositionsUpTo, Reevaluate, TypesAlive;
    var s0 := s.(players := Tick(s.players, CHASE_TICK_SECONDS, root));
    PositionsFollow(s0, MAX_PLAYERS, now);
    var s1 := BroadcastPositions(s0, now);
    ReevaluateFollows(s1, now);
    FollowsTransitive(s, s1, Reevaluate(s1, now), now);
  }

  lemma TimersClocked(w: World, now: nat, clock: real, root: real -> real, limit: nat)
    requires Inv(w.server) && Clocked(w.server, limit) && now <= limit
    ensures Clocked(AdvanceTimers(w, now, clock, root).server, limit)
  {
    hide CloseLobby, Chasing, Inv, Progresses;
    var s := w.server;
    ExpiryIsIdle(s, now);
    CloseLobbySettles(s, now);
    CloseLobbyClocked(s, now, limit);
    var s1 := CloseLobby(s, now);
    if TickDue(w, now, clock) {
      ProgressesInv(s, s1);
      ChasingAdvances(s1, now, root);
      ChasingFollows(s1, now, root);
      AdvancesPhase(s1, Chasing(s1, now, root));
      FollowsClocked(s1, Chasing(s1, now, root), now, limit);
    }
  }

  lemma AdvancesPhase(s: Server, r: Server)
    requires Advances(s, r) || Admits(s, r)
    ensures r.phase == LobbyOpen ==> s.phase == LobbyOpen || s.phase == Setup || s.phase == Repick
  {
  }

  lemma EventFollows(w: World, e: Event, root: real -> real)
    requires Inv(w.server) && !e.Timer? && !IsRematch(w.server, e)
    ensures Follows(w.server, Step(w, e, root).server, EventTime(e))
  {
    hide HandleCommand, Lost, Accepted;
    var s := w.server;
    match e
    case Accept => AcceptedFollows(s);
    case ReadFailure(i, now) => LostFollows(s, i, now);
    case Line(i, c, now) => if s.players[i].connected { CommandFollows(s, i, c, now); }
    case Write(i, sends, now) =>
      if s.players[i].connected {
        var p := s.players[i];
        var (sent, outcome) := FlushCount(|p.outbuf|, sends);
        var s1 := WithPlayer(s, i, p.(outbuf := p.outbuf[sent..]));
        LostFollows(s1, i, now);
      }
  }

  lemma AcceptedFollows(s: Server)
    requires s.phase != Repick
    ensures Follows(s, Accepted(s), 0)
  {
  }

  lemma StepClocked(w: World, e: Event, root: real -> real, limit: nat)
    requires Inv(w.server) && Clocked(w.server, limit) && EventTime(e) <= limit
    ensures Clocked(Step(w, e, root).server, limit)
  {
    hide HandleCommand, AdvanceTimers, Step, Sound, TimerSound, Follows, Advances, Admits, Clocked;
    if e.Timer? {
      TimerStep(w, e, root);
      TimersClocked(w, e.now, e.clock, root, limit);
    } else if IsRematch(w.server, e) {
      StepKeepsInv(w, e, root);
      ResetClocked(w.server, limit);
    } else {
      EventFollows(w, e, root);
      EventAdmits(w, e, root);
      AdvancesPhase(w.server, Step(w, e, root).server);
      FollowsClocked(w.server, Step(w, e, root).server, EventTime(e), limit);
    }
  }

  lemma ResetClocked(s: Server, limit: nat)
    ensures Clocked(ResetMatch(s), limit)
  {
  }

  lemma {:induction false} RunClocked(w: World, events: seq<Event>, root: real -> real, limit: nat)
    requires Inv(w.server) && Clocked(w.server, limit)
    requires forall k :: 0 <= k < |events| ==> EventTime(events[k]) <= limit
    ensures Clocked(Run(w, events, root).server, limit)
    decreases |events|
  {
    hide Inv, Step, Clocked, EventTime;
    if events != [] {
      var n := |events| - 1;
      RunClocked(w, events[..n], root, limit);
      RunKeepsInv(w, events[..n], root);
      StepClocked(Run(w, events[..n], root), events[n], root, limit);
    }
  }

  /** The largest number of seconds of a signed 64-bit clock. */
  const TIME_MAX := 0x7FFF_FFFF_FFFF_FFFF

  /** In every state that a run on a 64-bit clock reaches, round number and remaining seconds are
      machine words, and at most two rounds have been started since the lobby opened. */
  lemma ReachableInRange(clock: real, events: seq<Event>, root: real -> real, now: nat)
    requires now <= TIME_MAX && forall k :: 0 <= k < |events| ==> EventTime(events[k]) <= TIME_MAX
    ensures InRange(Run(StartOfServer(clock), events, root).server, now)
    ensures 0 <= Run(StartOfServer(clock), events, root).server.roundNo <= 2
  {
    EmptyServerInv();
    hide Inv, Run, EventTime;
    RunClocked(StartOfServer(clock), events, root, TIME_MAX);
  }

  /** A snapshot of any state that a run reaches, to any slot, takes fewer than 2048 bytes, in lines
      that the framing carries unaltered, and is refused exactly for lack of that room. */
  lemma ReachableSnapshots(clock: real, events: seq<Event>, root: real -> real, i: Slot, now: nat, pending: string)
    requires now <= TIME_MAX && forall k :: 0 <= k < |events| ==> EventTime(events[k]) <= TIME_MAX
    ensures var s := Run(StartOfServer(clock), events, root).server;
            var lines := SnapshotLines(s, s.players[i], now);
            && |Framed(lines)| < SNAPSHOT_LIMIT && AllLines(lines)
            && (EnqueuedAll(pending, lines).None? <==> |pending| + |Framed(lines)| > OUTBUF_SIZE)
  {
    ReachableInRange(clock, events, root, now);
    ReachableStates(clock, events, root);
    var s := Run(StartOfServer(clock), events, root).server;
    hide Run, SnapshotLines, InRange, Framed;
    SnapshotIsShort(s, s.players[i], now);
    SnapshotRefusedIff(s, s.players[i], now, pending);
  }
}
