/** The main results about the match: what every event does to the phase and to the players, and
    what holds in every state that any run of events reaches. */
module MatchRuns {
  import opened Common
  import opened Protocol
  import opened Game
  import opened Chase
  import opened ChaseGeometry
  import opened ServerState
  import opened ServerCommands
  import opened ServerInvariant
  import opened ServerRuns
  import opened RunInvariant
  import opened Mail
  import opened SnapshotText

  // ---------------------------------------------------------------- timers

  predicate LobbyIsOver(s: Server, now: nat) {
    s.phase == LobbyOpen && s.joinDeadline != 0 && now >= s.joinDeadline
  }

  /** Closing a lobby whose time is up ends in a round or in the end of the match, whatever is
      dropped on the way: the setup phase never outlives the event. */
  lemma CloseLobbySettles(s: Server, now: nat)
    requires Inv(s)
    ensures var r := CloseLobby(s, now);
            && Progresses(s, r) && Connected(r.players) <= Connected(s.players)
            && (!LobbyIsOver(s, now) ==> r == s)
            && (LobbyIsOver(s, now) ==>
                  (r.phase == RoundActive || r.phase == GameOver) && Kept(s, r))
  {
    hide Broadcast, StartActiveRound, EndGame, Kept, Records;
    if s.phase != LobbyOpen || s.joinDeadline == 0 || now < s.joinDeadline {
      NestedReflexive(s);
      NestedAdvances(s, s);
    } else {
      var s0 := s.(phase := Setup, setupDeadline := now + SETUP_SECONDS);
      SetupSound(s, s0);
      BroadcastSound(s0, "LOBBY_CLOSED", now);
      var s1 := Broadcast(s0, "LOBBY_CLOSED", now);
      var line := Text.SetupOpenLine(SETUP_SECONDS);
      BroadcastSound(s1, line, now);
      var s2 := Broadcast(s1, line, now);
      NestedTransitive(s0, s1, s2);
      if AdmittedCount(s2.players) < 2 {
        FewAdmittedUnanimous(s2.players);
        EndGameSound(s2);
      } else {
        RecordsReady(s2);
        StartActiveRoundSound(s2, now);
      }
      var r := CloseLobby(s, now);
      SurvivesTransitive(s0, s2, r);
      assert Kept(s, r) by { SetupKept(s, s0, r); }
      KeptWinner(s, r);
    }
  }

  lemma SetupSound(s: Server, s0: Server)
    requires Sound(s) && s.phase == LobbyOpen && s0 == s.(phase := Setup, setupDeadline := s0.setupDeadline)
    ensures Sound(s0)
  {
  }

  lemma SetTimerSound(s: Server, s0: Server)
    requires Sound(s) && s.phase == LobbyOpen && s0 == s.(joinDeadline := s0.joinDeadline)
    ensures Sound(s0)
  {
  }

  lemma SetupKept(s: Server, s0: Server, r: Server)
    requires s0.players == s.players && s0.nextId == s.nextId && Kept(s0, r)
    ensures Kept(s, r)
  {
  }

  /** Admission implies a choice and a spawn, so admitted players are always ready. */
  lemma RecordsReady(s: Server)
    requires Records(s) && AdmittedCount(s.players) >= 2
    ensures AllAdmittedReady(s.players)
  {
    forall k | 0 <= k < MAX_PLAYERS && IsAdmitted(s.players[k])
      ensures IsReady(s.players[k])
    {
      assert PlayerOk(s.players[k], s.nextId);
    }
  }

  lemma KeptAdmittedCount(s: Server, r: Server)
    requires Kept(s, r)
    ensures AdmittedCount(s.players) < 2 ==> AdmittedCount(r.players) < 2
  {
    CountAtMostOne(s.players, IsAdmitted);
    CountAtMostOne(r.players, IsAdmitted);
    hide CountIf;
    forall k | 0 <= k < MAX_PLAYERS
      ensures IsAdmitted(r.players[k]) ==> IsAdmitted(s.players[k])
    {
      assert Survives(s.players[k], r.players[k]);
    }
  }

  lemma SameAdmittedCount(ps: Table, m: Post)
    ensures AdmittedCount(PostedAll(ps, m)) < 2 <==> AdmittedCount(ps) < 2
  {
    CountAtMostOne(ps, IsAdmitted);
    CountAtMostOne(PostedAll(ps, m), IsAdmitted);
    forall k: Slot
      ensures IsAdmitted(PostedAll(ps, m)[k]) == IsAdmitted(ps[k])
    {
      PostedSlot(ps, m, k);
    }
    hide CountIf, PostedAll;
  }

  /** The setup phase that an expired lobby enters. */
  function Entered(s: Server, now: nat): Server { s.(phase := Setup, setupDeadline := now + SETUP_SECONDS) }

  /** The two broadcasts with which an expired lobby closes. */
  function Announced(s: Server, now: nat): Server {
    Broadcast(Broadcast(Entered(s, now), "LOBBY_CLOSED", now), Text.SetupOpenLine(SETUP_SECONDS), now)
  }

  const CLOSING_LINES := ["LOBBY_CLOSED", Text.SetupOpenLine(SETUP_SECONDS)]

  lemma AnnouncedSends(s: Server, now: nat)
    ensures Sends(Entered(s, now), Announced(s, now), ToAll(CLOSING_LINES))
  {
    hide Broadcast, Sends, ToAll, Connected;
    var s0 := Entered(s, now);
    var s1 := Broadcast(s0, "LOBBY_CLOSED", now);
    BroadcastSends(s0, "LOBBY_CLOSED", now);
    BroadcastSends(s1, Text.SetupOpenLine(SETUP_SECONDS), now);
    SendsShrinks(s1, Announced(s, now), ToAll([Text.SetupOpenLine(SETUP_SECONDS)]));
    SendsThen(s0, s1, Announced(s, now), ToAll(["LOBBY_CLOSED"]), ToAll([Text.SetupOpenLine(SETUP_SECONDS)]));
    ToAllThen(["LOBBY_CLOSED"], [Text.SetupOpenLine(SETUP_SECONDS)]);
    assert ["LOBBY_CLOSED"] + [Text.SetupOpenLine(SETUP_SECONDS)] == CLOSING_LINES;
  }

  lemma AnnouncedSound(s: Server, now: nat)
    requires Inv(s) && s.phase == LobbyOpen
    ensures Sound(Announced(s, now)) && Kept(s, Announced(s, now))
  {
    hide Broadcast, Kept, Records;
    var s0 := Entered(s, now);
    SetupSound(s, s0);
    BroadcastSound(s0, "LOBBY_CLOSED", now);
    var s1 := Broadcast(s0, "LOBBY_CLOSED", now);
    var line := Text.SetupOpenLine(SETUP_SECONDS);
    BroadcastSound(s1, line, now);
    SurvivesTransitive(s0, s1, Broadcast(s1, line, now));
    SetupKept(s, s0, Broadcast(s1, line, now));
  }

  /** What an expired lobby becomes as the number of admitted players decides, before anything is sent. */
  function ClosedLobby(s: Server, now: nat): Server {
    if AdmittedCount(s.players) < 2 then Entered(s, now).(phase := GameOver) else StartRound(Entered(s, now), now)
  }

  /** All that is sent to each slot when the lobby closes. */
  function ClosingPost(s: Server): Post {
    Then(ToAll(CLOSING_LINES),
         if AdmittedCount(s.players) < 2 then ResultLines(s.players)
         else ToAll(StartLines(s.roundNo + 1, StartRound(s, 0).players)))
  }

  /** Closing a lobby, exactly. */
  lemma CloseLobbySends(s: Server, now: nat)
    requires Inv(s) && LobbyIsOver(s, now)
    ensures Sends(ClosedLobby(s, now), CloseLobby(s, now), ClosingPost(s))
  {
    var s0, s2, r, m := Entered(s, now), Announced(s, now), CloseLobby(s, now), ToAll(CLOSING_LINES);
    AnnouncedSends(s, now);
    AnnouncedSound(s, now);
    SameAdmittedCount(s.players, m);
    if AdmittedCount(s2.players) >= 2 {
      SoundRecords(s2);
      RecordsReady(s2);
    }
    KeptAdmittedCount(s, s2);
    EndGameShrinks(s2);
    hide Broadcast, EndGame, CountIf, ResultLines, PostedAll, StartActiveRound, AllTake, Kept, Records, StartRound, PlayerLines, AllAdmittedReady;
    if AdmittedCount(s.players) < 2 {
      EndGameFrom(s0, s2, m, r);
    } else {
      StartFrom(s0, s2, m, r, now);
      assert StartRound(s0, now).players == StartRound(s, 0).players by { StartedAlike(s0, now, s); }
    }
  }

  lemma StartedAlike(s: Server, now: nat, s': Server)
    requires s'.players == s.players
    ensures StartRound(s, now).players == StartRound(s', 0).players
  {
  }

  /** What an expired lobby becomes. With fewer than two admitted players it is the end of the
      match, whoever is lost on the way. Nobody is lost exactly when every connected player's buffer
      takes all that the closing sends to it; and then it is a round exactly when there are two
      admitted players, and in it all of them are alive. */
  lemma CloseLobbyDecides(s: Server, now: nat)
    requires Inv(s) && LobbyIsOver(s, now)
    ensures var r := CloseLobby(s, now);
            && (AdmittedCount(s.players) < 2 ==> r.phase == GameOver)
            && (Connected(r.players) == Connected(s.players) <==> AllTake(s.players, ClosingPost(s)))
            && (AllTake(s.players, ClosingPost(s)) ==>
                  && (r.phase == RoundActive <==> AdmittedCount(s.players) >= 2)
                  && (r.phase == RoundActive ==>
                        forall k :: 0 <= k < MAX_PLAYERS && IsAdmitted(s.players[k]) ==> IsAlive(r.players[k])))
  {
    var r, t, m := CloseLobby(s, now), ClosedLobby(s, now), ClosingPost(s);
    CloseLobbySends(s, now);
    if AdmittedCount(s.players) < 2 {
      AnnouncedSound(s, now);
      KeptAdmittedCount(s, Announced(s, now));
      assert r == EndGame(Announced(s, now));
    }
    StartedConnected(Entered(s, now), now);
    SameTake(s.players, t.players, m);
    hide CloseLobby, ClosingPost, AllTake, Sound, CountIf;
    if AllTake(s.players, m) && AdmittedCount(s.players) >= 2 {
      SendsSame(t, r, m);
      forall k: Slot | IsAdmitted(s.players[k])
        ensures IsAlive(r.players[k])
      {
        AdmittedStarts(s, now, k);
        assert SamePlayer(t.players[k], r.players[k]);
      }
    }
  }

  lemma AdmittedStarts(s: Server, now: nat, k: Slot)
    requires Inv(s) && s.phase == LobbyOpen && IsAdmitted(s.players[k])
    ensures IsAlive(StartRound(Entered(s, now), now).players[k])
  {
  }

  lemma SoundRecords(s: Server)
    requires Sound(s)
    ensures Records(s)
  {
  }

  /** More than the closing of a lobby sends to anybody. */
  const CLOSING_ROOM := 128 + START_ROOM

  /** With that much room in every buffer nobody is lost. */
  lemma CloseLobbyWithRoom(s: Server)
    requires Inv(s) && Roomy(s.players, CLOSING_ROOM) && IsWord(s.roundNo + 1)
    ensures AllTake(s.players, ClosingPost(s))
  {
    NumberedHeaders(SETUP_SECONDS);
    RoundHeader(s.roundNo + 1, ROUND_SECONDS);
    SoundRecords(s);
    RecordsPrintable(s);
    StartedPrintable(s, 0);
    var start := Text.RoundStartLine(s.roundNo + 1, ROUND_SECONDS);
    var t := StartRound(s, 0).players;
    hide Framed, Brief, PlayerLines, Roomy, Sound, CountIf, AllPrintable, StartRound, GameOverLines;
    BriefLine("LOBBY_CLOSED", 54);
    BriefLine(CLOSING_LINES[1], 54);
    BriefThen(["LOBBY_CLOSED"], 54, [CLOSING_LINES[1]], 54);
    assert ["LOBBY_CLOSED"] + [CLOSING_LINES[1]] == CLOSING_LINES;
    LineAndPositionsBrief(start, t);
    BriefThen(CLOSING_LINES, 108, [start] + PlayerLines(t), START_ROOM);
    forall k: Slot
      ensures Brief(ClosingPost(s)[k], CLOSING_ROOM)
    {
      ResultBrief(s.players[k]);
      BriefThen(CLOSING_LINES, 108, GameOverLines(s.players[k]), 16);
      BriefMore(CLOSING_LINES + GameOverLines(s.players[k]), 124, CLOSING_ROOM);
      BriefMore(CLOSING_LINES + StartLines(s.roundNo + 1, t), 108 + START_ROOM, CLOSING_ROOM);
    }
    RoomTakes(s.players, ClosingPost(s), CLOSING_ROOM);
  }

  /** Between events nobody is ever unready: the expiry of the setup phase has nothing to do. */
  lemma ExpiryIsIdle(s: Server, now: nat)
    requires Inv(s)
    ensures AfterDeadlines(s, now) == CloseLobby(s, now)
  {
    hide CloseLobby;
    CloseLobbySettles(s, now);
  }

  lemma ChasedOk(p: Player, q: Player, nextId: int)
    requires PlayerOk(p, nextId) && p.connected && Chased(p, q) && (IsAlive(q) ==> InBox(q.x, q.y))
    ensures PlayerOk(q, nextId) && q.waiting == p.waiting
  {
  }

  lemma AliveInBox(s: Server)
    requires Records(s)
    ensures InBoxWhileAlive(s.players)
  {
    forall k | 0 <= k < MAX_PLAYERS && IsAlive(s.players[k])
      ensures InBox(s.players[k].x, s.players[k].y)
    {
      assert PlayerOk(s.players[k], s.nextId);
    }
  }

  /** In a round the winners are the living, and somebody living survives a tick. */
  lemma TickKeepsWinner(s: Server, root: real -> real)
    requires Sound(s) && s.phase == RoundActive && HasWinner(s.players)
    ensures HasWinner(Tick(s.players, CHASE_TICK_SECONDS, root))
  {
    TickShape(s.players, CHASE_TICK_SECONDS, root);
    hide Tick;
    var k :| 0 <= k < MAX_PLAYERS && IsWinner(s.players[k]);
    assert IsAlive(s.players[k]);
    var ps := Tick(s.players, CHASE_TICK_SECONDS, root);
    var j :| 0 <= j < MAX_PLAYERS && IsAlive(ps[j]);
    assert IsWinner(ps[j]);
  }

  /** A tick keeps every record, and in a round nobody is left waiting. */
  lemma TickSound(s: Server, root: real -> real)
    requires Sound(s) && s.phase == RoundActive
    ensures var r := s.(players := Tick(s.players, CHASE_TICK_SECONDS, root));
            Sound(r) && Connected(r.players) == Connected(s.players)
  {
    var ps := Tick(s.players, CHASE_TICK_SECONDS, root);
    TickShape(s.players, CHASE_TICK_SECONDS, root);
    AliveInBox(s);
    hide Tick, PlayerOk;
    forall k | 0 <= k < MAX_PLAYERS
      ensures ps[k].connected == s.players[k].connected && ps[k].id == s.players[k].id
      ensures ps[k].registered == s.players[k].registered && ps[k].name == s.players[k].name
      ensures ps[k].connected ==> PlayerOk(ps[k], s.nextId) && !ps[k].waiting
    {
      assert Chased(s.players[k], ps[k]);
      if s.players[k].connected {
        ChasedOk(s.players[k], ps[k], s.nextId);
      }
    }
  }

  lemma ChasingAdvances(s: Server, now: nat, root: real -> real)
    requires Inv(s) && s.phase == RoundActive
    ensures Advances(s, Chasing(s, now, root))
    ensures Contested(Chasing(s, now, root)) && Connected(Chasing(s, now, root).players) <= Connected(s.players)
  {
    hide Tick, Reevaluate, PositionsUpTo, Kept, Records, HasWinner;
    var ps := Tick(s.players, CHASE_TICK_SECONDS, root);
    TickSound(s, root);
    if HasWinner(s.players) {
      TickKeepsWinner(s, root);
    }
    var s0 := s.(players := ps);
    PositionsSound(s0, MAX_PLAYERS, now);
    var s1 := BroadcastPositions(s0, now);
    NestedKept(s0, s1);
    if TypesAlive(ps) <= 1 {
      ReevaluateSound(s1, now);
      SurvivesTransitive(s0, s1, Reevaluate(s1, now));
    }
    KeptWinner(s0, Chasing(s, now, root));
  }

  // ---------------------------------------------------------------- accept and rematch

  lemma NewPlayerOk(id: int, line: string)
    requires 0 < id
    ensures var p := Told(NewPlayer(id), line);
            PlayerOk(p, id + 1) && p.connected && p.id == id && !p.registered && !p.admitted && !p.alive && !p.waiting
  {
    hide Told;
    var p := Told(NewPlayer(id), line);
    ToldOk(NewPlayer(id), line);
    assert p == FreshProgress(p);
  }

  lemma LaterId(p: Player, nextId: int)
    requires PlayerOk(p, nextId)
    ensures PlayerOk(p, nextId + 1) && p.id < nextId
  {
  }

  /** A new connection gets a slot that nobody uses, an id that nobody has, and no standing. */
  lemma AcceptedRecords(s: Server)
    requires Records(s)
    ensures var r, i := Accepted(s), FreeSlot(s.players);
            && Records(r) && r == s.(players := r.players, nextId := r.nextId)
            && (forall k :: 0 <= k < MAX_PLAYERS && k != i ==> r.players[k] == s.players[k])
            && (i < MAX_PLAYERS ==> !s.players[i].connected && r.players[i].connected && !r.players[i].admitted
                                    && !r.players[i].alive && !r.players[i].waiting)
  {
    var i := FreeSlot(s.players);
    if i < MAX_PLAYERS {
      var p := Told(NewPlayer(s.nextId), "INFO connected_send_HELLO_name");
      NewPlayerOk(s.nextId, "INFO connected_send_HELLO_name");
      hide FreeSlot, Told, PlayerOk;
      var r := Accepted(s);
      assert r.players == s.players[i := p];
      assert forall k :: 0 <= k < MAX_PLAYERS && k != i ==> r.players[k] == s.players[k];
      forall k | 0 <= k < MAX_PLAYERS && r.players[k].connected
        ensures PlayerOk(r.players[k], r.nextId)
      {
        if k != i {
          LaterId(s.players[k], s.nextId);
        }
      }
    }
  }

  lemma AcceptAdvances(s: Server)
    requires Inv(s)
    ensures Advances(s, Accepted(s))
  {
    AcceptedRecords(s);
    hide FreeSlot, Advances;
    SameStandingAdvances(s, Accepted(s));
  }

  lemma ResetPlayerOk(p: Player, nextId: int)
    requires p.connected && PlayerOk(p, nextId)
    ensures var q := ResetPlayer(p);
            q.connected ==> PlayerOk(q, nextId) && q == FreshProgress(p).(outbuf := q.outbuf)
  {
    hide EnqueuedAll;
    EnqueuedAllGrows(FreshProgress(p).outbuf, RESET_LINES);
    assert !p.registered ==> p == p.(outbuf := p.outbuf);
  }

  lemma RematchInv(s: Server)
    requires Inv(s)
    ensures Inv(ResetMatch(s)) && ResetMatch(s).phase == LobbyOpen
    ensures forall k :: 0 <= k < MAX_PLAYERS && ResetMatch(s).players[k].connected ==>
              var p := s.players[k];
              p.connected && ResetMatch(s).players[k] == FreshProgress(p).(outbuf := ResetMatch(s).players[k].outbuf)
  {
    var r := ResetMatch(s);
    forall k | 0 <= k < MAX_PLAYERS && r.players[k].connected
      ensures s.players[k].connected && PlayerOk(r.players[k], r.nextId)
      ensures r.players[k] == FreshProgress(s.players[k]).(outbuf := r.players[k].outbuf)
    {
      assert s.players[k].connected && r.players[k] == ResetPlayer(s.players[k]);
      ResetPlayerOk(s.players[k], s.nextId);
    }
  }

  // ---------------------------------------------------------------- one event

  predicate IsRematch(s: Server, e: Event) {
    e.Line? && e.command.Rematch? && s.phase == GameOver && s.players[e.slot].connected
  }

  lemma FlushingAdvances(s: Server, i: Slot, sends: seq<SendResult>, now: nat)
    requires Inv(s) && s.players[i].connected
    ensures Advances(s, Flushing(s, i, sends, now))
  {
    hide Lost;
    var p := s.players[i];
    var (sent, outcome) := FlushCount(|p.outbuf|, sends);
    var q := p.(outbuf := p.outbuf[sent..]);
    assert PlayerOk(p, s.nextId);
    assert PlayerOk(q, s.nextId);
    PlayerChangeAdvances(s, i, q);
    var s1 := WithPlayer(s, i, q);
    if outcome == Broken {
      hide Inv;
      LostAdvances(s1, i, now);
      assert Connected(s1.players) == Connected(s.players) by {
        assert forall k :: 0 <= k < MAX_PLAYERS ==> s1.players[k].connected == s.players[k].connected;
      }
      AdvancesTransitive(s, s1, Lost(s1, i, now));
    }
  }

  lemma TimerAdvances(w: World, now: nat, clock: real, root: real -> real)
    requires Inv(w.server)
    ensures var r := AdvanceTimers(w, now, clock, root).server;
            && Progresses(w.server, r) && (TickDue(w, now, clock) ==> Contested(r))
            && (w.server.phase == LobbyOpen ==> (r.phase == LobbyOpen <==> !LobbyIsOver(w.server, now)))
  {
    var s := w.server;
    hide Progresses, CloseLobby, Chasing, Kept;
    ExpiryIsIdle(s, now);
    CloseLobbySettles(s, now);
    var s1 := CloseLobby(s, now);
    ProgressesInv(s, s1);
    if TickDue(w, now, clock) {
      ChasingAdvances(s1, now, root);
      CloseThenChase(s, s1, Chasing(s1, now, root));
    }
  }

  lemma ProgressesInv(s: Server, r: Server)
    requires Progresses(s, r)
    ensures Inv(r)
    ensures s.phase == RoundActive ==> r.phase == RoundActive || r.phase == GameOver
  {
  }

  lemma CloseThenChase(s: Server, s1: Server, r: Server)
    requires Inv(s) && Progresses(s, s1) && Progresses(s1, r) && s1.phase == RoundActive
    requires Connected(r.players) <= Connected(s1.players) <= Connected(s.players) && Contested(r)
    ensures Progresses(s, r) && (r.phase == RoundActive || r.phase == GameOver)
  {
  }

  /** CHOICE and SPAWN are the commands that can admit a player. */
  predicate MayAdmit(e: Event) { e.Line? && (e.command.Choose? || e.command.Spawn?) }

  /** Events other than the timer and a rematch. */
  lemma EventAdmits(w: World, e: Event, root: real -> real)
    requires Inv(w.server) && !e.Timer? && !IsRematch(w.server, e)
    ensures Admits(w.server, Step(w, e, root).server)
    ensures !MayAdmit(e) ==> Advances(w.server, Step(w, e, root).server)
  {
    hide Progresses, Lost, HandleCommand, Flushing, Accepted;
    var s := w.server;
    StayingAdvances(s);
    match e
    case Accept => AcceptAdvances(s);
    case ReadFailure(i, now) => if s.players[i].connected { LostAdvances(s, i, now); }
    case Line(i, c, now) => if s.players[i].connected { CommandAdvances(s, i, c, now); }
    case Write(i, sends, now) => if s.players[i].connected { FlushingAdvances(s, i, sends, now); }
  }

  /** Every event keeps the invariant, whatever it drops, and moves the match on. */
  lemma StepKeepsInv(w: World, e: Event, root: real -> real)
    requires Inv(w.server)
    ensures var s, r := w.server, Step(w, e, root).server;
            Inv(r) && (if IsRematch(s, e) then r == ResetMatch(s) && r.phase == LobbyOpen else Progresses(s, r))
  {
    hide HandleCommand, AdvanceTimers;
    if e.Timer? {
      TimerAdvances(w, e.now, e.clock, root);
    } else if IsRematch(w.server, e) {
      RematchInv(w.server);
      RematchHandled(w.server, e.slot, e.now);
    } else {
      EventAdmits(w, e, root);
    }
  }

  lemma StayingAdvances(s: Server)
    requires Inv(s)
    ensures Advances(s, s) && Progresses(s, s)
  {
    NestedReflexive(s);
    NestedAdvances(s, s);
  }

  lemma RematchHandled(s: Server, i: Slot, now: nat)
    requires s.phase == GameOver
    ensures HandleCommand(s, i, Rematch, now) == ResetMatch(s)
  {
  }

  lemma EmptyServerInv()
    ensures Inv(EmptyServer())
  {
  }

  lemma {:induction false} RunKeepsInv(w: World, events: seq<Event>, root: real -> real)
    requires Inv(w.server)
    ensures Inv(Run(w, events, root).server)
    decreases |events|
  {
    hide Inv, Step;
    if events != [] {
      var n := |events| - 1;
      RunKeepsInv(w, events[..n], root);
      StepKeepsInv(Run(w, events[..n], root), events[n], root);
    }
  }

  /** Every state that a run reaches, at an event boundary, satisfies the invariant: players'
      records are consistent, ids and names distinct, flags agree with the phase, winners hold one
      choice, living players are on the board, and no setup or repick phase is left pending. */
  lemma ReachableStates(clock: real, events: seq<Event>, root: real -> real)
    ensures Inv(Run(StartOfServer(clock), events, root).server)
  {
    EmptyServerInv();
    hide Inv, Run;
    RunKeepsInv(StartOfServer(clock), events, root);
  }

  /** The phase graph of the events of a run: the lobby is left exactly when its timer is found
      expired, a round only for the end of the match, and that exactly by a rematch. */
  lemma PhaseGraph(w: World, e: Event, root: real -> real)
    requires Inv(w.server)
    ensures var s, r := w.server, Step(w, e, root).server;
            match s.phase
            case LobbyOpen =>
              if e.Timer? && LobbyIsOver(s, e.now) then r.phase == RoundActive || r.phase == GameOver
              else r.phase == LobbyOpen
            case RoundActive => r.phase == RoundActive || r.phase == GameOver
            case GameOver => r.phase == if IsRematch(s, e) then LobbyOpen else GameOver
            case _ => false
  {
    hide HandleCommand, AdvanceTimers, Sound, TimerSound, Step;
    StepKeepsInv(w, e, root);
    if w.server.phase == LobbyOpen {
      if e.Timer? {
        TimerStep(w, e, root);
        TimerAdvances(w, e.now, e.clock, root);
      } else {
        EventAdmits(w, e, root);
      }
    }
  }

  lemma TimerStep(w: World, e: Event, root: real -> real)
    requires e.Timer?
    ensures Step(w, e, root) == AdvanceTimers(w, e.now, e.clock, root)
  {
  }

  /** A round that is contested, or in which a tick or a loss of players has just been dealt with,
      is over or has at least two types left. */
  lemma RoundsStayContested(w: World, e: Event, root: real -> real)
    requires Inv(w.server) && w.server.phase == RoundActive
    requires var s, r := w.server, Step(w, e, root).server;
             Contested(s) || !(Connected(s.players) <= Connected(r.players)) || (e.Timer? && TickDue(w, e.now, e.clock))
    ensures var r := Step(w, e, root).server; r.phase == GameOver || TypesAlive(r.players) >= 2
  {
    hide AdvanceTimers, Inv, Step;
    StepKeepsInv(w, e, root);
    PhaseGraph(w, e, root);
    if e.Timer? {
      TimerStep(w, e, root);
      TimerAdvances(w, e.now, e.clock, root);
    }
  }

  /** A due tick, or the loss of a player in a round: what makes the server count the living types. */
  ghost predicate Counts(w: World, e: Event, root: real -> real) {
    var s := w.server;
    || (e.Timer? && TickDue(w, e.now, e.clock))
    || (s.phase == RoundActive && !(Connected(s.players) <= Connected(Step(w, e, root).server.players)))
  }

  lemma CountedIsContested(w: World, e: Event, root: real -> real)
    requires Inv(w.server) && Counts(w, e, root)
    ensures Contested(Step(w, e, root).server)
  {
    hide AdvanceTimers, Inv, Step, TickDue;
    StepKeepsInv(w, e, root);
    if e.Timer? {
      TimerStep(w, e, root);
      TimerAdvances(w, e.now, e.clock, root);
    }
  }

  /** From the first tick or loss in a round on, every later state of that round has at least two
      types left. */
  lemma {:induction false} RoundStaysContested(w: World, events: seq<Event>, i: nat, root: real -> real)
    requires Inv(w.server) && i < |events| && Counts(Run(w, events[..i], root), events[i], root)
    requires forall j :: i < j <= |events| ==> Run(w, events[..j], root).server.phase == RoundActive
    ensures TypesAlive(Run(w, events, root).server.players) >= 2
    decreases |events|
  {
    hide Inv, Step, Counts, TypesAlive;
    var n := |events| - 1;
    assert events[..n + 1] == events;
    var before := Run(w, events[..n], root);
    RunKeepsInv(w, events[..n], root);
    assert Run(w, events, root) == Step(before, events[n], root);
    assert Run(w, events[..n + 1], root).server.phase == RoundActive;
    if i == n {
      CountedIsContested(before, events[n], root);
    } else {
      forall j | 0 <= j <= n
        ensures events[..n][..j] == events[..j]
      {
      }
      RoundStaysContested(w, events[..n], i, root);
      assert Run(w, events[..n], root).server.phase == RoundActive;
      RoundsStayContested(before, events[n], root);
    }
  }

  /** No event of the run disconnects a player, and none is a rematch. */
  ghost predicate NobodyLeaves(w: World, events: seq<Event>, root: real -> real)
    decreases |events|
  {
    events == [] ||
      var n := |events| - 1;
      var s := Run(w, events[..n], root).server;
      && NobodyLeaves(w, events[..n], root)
      && Connected(s.players) <= Connected(Run(w, events, root).server.players)
      && !IsRematch(s, events[n])
  }

  /** As long as nobody disconnects and there is no rematch, a match that has a possible winner
      keeps one, through all captures and to its end. */
  lemma {:induction false} WinnerPersists(w: World, events: seq<Event>, root: real -> real)
    requires Inv(w.server) && HasWinner(w.server.players) && NobodyLeaves(w, events, root)
    ensures HasWinner(Run(w, events, root).server.players)
    decreases |events|
  {
    hide Inv, Step, HasWinner;
    if events != [] {
      var n := |events| - 1;
      WinnerPersists(w, events[..n], root);
      RunKeepsInv(w, events[..n], root);
      StepKeepsInv(Run(w, events[..n], root), events[n], root);
    }
  }

  /** An event loses the exactness of the lobby timer only by admitting a player and disconnecting
      one at the same time. */
  lemma StepKeepsTimerExact(w: World, e: Event, root: real -> real)
    requires Inv(w.server) && TimerExact(w.server)
    requires MayAdmit(e) ==> Connected(w.server.players) <= Connected(Step(w, e, root).server.players)
    ensures TimerExact(Step(w, e, root).server)
  {
    hide HandleCommand, AdvanceTimers, Sound, Step;
    if e.Timer? {
      TimerStep(w, e, root);
      LobbyUntouched(w, e.now, e.clock, root);
    } else if IsRematch(w.server, e) {
      StepKeepsInv(w, e, root);
      NobodyAdmittedAfterReset(w.server);
    } else {
      EventAdmits(w, e, root);
    }
  }

  lemma LobbyUntouched(w: World, now: nat, clock: real, root: real -> real)
    requires Inv(w.server)
    ensures var r := AdvanceTimers(w, now, clock, root).server; r.phase == LobbyOpen ==> r == w.server
  {
    hide CloseLobby, Chasing, Sound;
    ExpiryIsIdle(w.server, now);
    CloseLobbySettles(w.server, now);
    TimerAdvances(w, now, clock, root);
  }

  lemma NobodyAdmittedAfterReset(s: Server)
    requires Inv(s)
    ensures !HasAdmitted(ResetMatch(s).players) && ResetMatch(s).joinDeadline == 0
  {
    RematchInv(s);
    forall k | 0 <= k < MAX_PLAYERS
      ensures !IsAdmitted(ResetMatch(s).players[k])
    {
    }
  }

  /** No CHOICE or SPAWN of the run disconnects anybody. */
  ghost predicate CleanAdmissions(w: World, events: seq<Event>, root: real -> real)
    decreases |events|
  {
    events == [] ||
      var n := |events| - 1;
      var s := Run(w, events[..n], root).server;
      && CleanAdmissions(w, events[..n], root)
      && (MayAdmit(events[n]) ==> Connected(s.players) <= Connected(Run(w, events, root).server.players))
  }

  /** On runs whose admissions disconnect nobody, the lobby timer runs exactly while somebody is
      admitted, whoever else comes and goes. */
  lemma {:induction false} TimerExactOnCleanRuns(w: World, events: seq<Event>, root: real -> real)
    requires Inv(w.server) && TimerExact(w.server) && CleanAdmissions(w, events, root)
    ensures TimerExact(Run(w, events, root).server)
    decreases |events|
  {
    hide Inv, Step, TimerExact;
    if events != [] {
      var n := |events| - 1;
      TimerExactOnCleanRuns(w, events[..n], root);
      RunKeepsInv(w, events[..n], root);
      StepKeepsTimerExact(Run(w, events[..n], root), events[n], root);
    }
  }

  lemma SoundPlayer(s: Server, i: Slot)
    requires Sound(s) && s.players[i].connected
    ensures PlayerOk(s.players[i], s.nextId)
  {
  }
}
