/** Invariants of every state the server can reach, at event boundaries. */
module RunInvariant {
  import opened Common
  import opened Protocol
  import opened Game
  import opened ServerState
  import opened ServerCommands
  import opened ServerInvariant
  import opened ServerRuns

  /** A running lobby timer means that somebody is waiting to play. */
  ghost predicate TimerSound(s: Server) {
    s.phase == LobbyOpen && s.joinDeadline != 0 ==> HasAdmitted(s.players)
  }

  /** What holds between events: the setup and repick phases never rest. */
  ghost predicate Inv(s: Server) {
    && Sound(s) && TimerSound(s)
    && (s.phase == LobbyOpen || s.phase == RoundActive || s.phase == GameOver)
  }

  ghost predicate HasWinner(ps: seq<Player>) {
    exists k :: 0 <= k < |ps| && IsWinner(ps[k])
  }

  /** From one event boundary to the next, apart from a rematch. */
  ghost predicate Progresses(s: Server, r: Server) {
    && Inv(r)
    && (s.phase == RoundActive ==> r.phase == RoundActive || r.phase == GameOver)
    && (s.phase == GameOver ==> r.phase == GameOver)
    && (s.phase == RoundActive && (Contested(s) || !(Connected(s.players) <= Connected(r.players))) ==> Contested(r))
    && (Connected(s.players) <= Connected(r.players) && HasWinner(s.players) ==> HasWinner(r.players))
  }

  /** The timer runs exactly when somebody is waiting to play. */
  ghost predicate TimerExact(s: Server) {
    s.phase == LobbyOpen ==> (s.joinDeadline != 0 <==> HasAdmitted(s.players))
  }

  /** An event other than the timer keeps the lobby open, and the exactness of its timer as far
      as nobody was lost. */
  ghost predicate Admits(s: Server, r: Server) {
    && Progresses(s, r)
    && (s.phase == LobbyOpen ==> r.phase == LobbyOpen)
    && (TimerExact(s) && Connected(s.players) <= Connected(r.players) ==> TimerExact(r))
  }

  /** One that admits nobody keeps it anyway. */
  ghost predicate Advances(s: Server, r: Server) {
    && Progresses(s, r)
    && (s.phase == LobbyOpen ==> r.phase == LobbyOpen)
    && (TimerExact(s) ==> TimerExact(r))
  }

  // ---------------------------------------------------------------- consequences of the nested steps

  lemma KeptWinner(s: Server, r: Server)
    requires Kept(s, r)
    ensures Connected(s.players) <= Connected(r.players) && HasWinner(s.players) ==> HasWinner(r.players)
  {
    if Connected(s.players) <= Connected(r.players) && HasWinner(s.players) {
      var k :| 0 <= k < MAX_PLAYERS && IsWinner(s.players[k]);
      assert k in Connected(s.players);
      assert Survives(s.players[k], r.players[k]) && r.players[k].connected;
    }
  }

  lemma NestedAdvances(s: Server, r: Server)
    requires Inv(s) && Nested(s, r)
    ensures Advances(s, r)
  {
    KeptAdmitted(s, r);
    KeptWinner(s, r);
  }

  lemma SettledAdvances(s: Server, s': Server, r: Server)
    requires Inv(s) && Sound(s') && Kept(s, s') && Settled(s', r)
    requires s'.phase == s.phase || (s.phase == RoundActive && s'.phase == GameOver)
    requires s.phase == LobbyOpen ==> s'.joinDeadline == s.joinDeadline || !HasAdmitted(s'.players)
    ensures Advances(s, r)
    ensures s.phase == RoundActive ==> Contested(r)
  {
    KeptAdmitted(s, s');
    hide Records, Kept;
    SurvivesTransitive(s, s', r);
    KeptWinner(s, r);
  }

  lemma {:induction false} SnapshotsPrune(s: Server, n: nat, now: nat)
    requires n <= MAX_PLAYERS
    ensures var r := SnapshotsUpTo(s, n, now); r == s.(players := r.players) && Pruned(s.players, r.players)
  {
    hide SnapshotLines, EnqueuedAll;
    if n > 0 {
      SnapshotsPrune(s, n - 1, now);
      var m := SnapshotsUpTo(s, n - 1, now);
      var p := m.players[n - 1];
      EnqueuedAllGrows(p.outbuf, SnapshotLines(m, p, now));
    }
  }

  lemma BroadcastGameStateSound(s: Server, now: nat)
    requires Sound(s)
    ensures Nested(s, BroadcastGameState(s, now))
  {
    hide SnapshotsUpTo, Reevaluate;
    var s' := SnapshotsUpTo(s, MAX_PLAYERS, now);
    SnapshotsPrune(s, MAX_PLAYERS, now);
    PrunedKeeps(s, s');
    if Connected(s'.players) == Connected(s.players) {
      PrunedNobody(s.players, s'.players);
    } else {
      ReevaluateSound(s', now);
      SettledNested(s, s', Reevaluate(s', now));
    }
  }

  lemma ClearedSound(s: Server, i: Slot)
    requires Records(s)
    ensures var r := Cleared(s, i);
            && Records(r) && Kept(s, r) && (PhaseOk(s) ==> PhaseOk(r))
            && (s.players[i].connected ==> Connected(r.players) < Connected(s.players))
  {
    var r := Cleared(s, i);
    assert forall k :: 0 <= k < MAX_PLAYERS && k != i ==> r.players[k] == s.players[k];
    assert Pruned(s.players, r.players);
    PrunedKeeps(s, r);
    if s.players[i].connected {
      assert i in Connected(s.players) && i !in Connected(r.players);
    }
  }

  lemma DroppedSound(s: Server, i: Slot, announce: bool, now: nat)
    requires Sound(s)
    ensures var r := Dropped(s, i, announce, now);
            && Sound(r) && Kept(s, r)
            && (s.phase != Setup ==> r.phase == s.phase || (s.phase == RoundActive && r.phase == GameOver))
            && (s.phase == LobbyOpen ==> r.joinDeadline == s.joinDeadline || !HasAdmitted(r.players))
  {
    hide Broadcast, BroadcastGameState, Nested, Kept, Records, PhaseOk, HasAdmitted;
    var p := s.players[i];
    var s1 := Cleared(s, i);
    ClearedSound(s, i);
    if p.connected && announce && p.registered {
      BroadcastSound(s1, LeftLine(p.name), now);
      var s2 := Broadcast(s1, LeftLine(p.name), now);
      NestedKept(s1, s2);
      BroadcastGameStateSound(s2, now);
      NestedTransitive(s1, s2, BroadcastGameState(s2, now));
      NestedKept(s1, BroadcastGameState(s2, now));
      SurvivesTransitive(s, s1, BroadcastGameState(s2, now));
    }
  }

  lemma NestedKept(s: Server, r: Server)
    requires Nested(s, r)
    ensures Sound(r) && Kept(s, r)
    ensures s.phase != Setup ==> s.phase == Repick || r.phase == s.phase || (s.phase == RoundActive && r.phase == GameOver)
    ensures s.phase == LobbyOpen ==> r.joinDeadline == s.joinDeadline || !HasAdmitted(r.players)
  {
  }

  /** Losing a connection, for whatever reason. */
  lemma LostAdvances(s: Server, i: Slot, now: nat)
    requires Inv(s)
    ensures Advances(s, Lost(s, i, now))
    ensures s.phase == RoundActive ==> Contested(Lost(s, i, now))
  {
    hide Dropped, Reevaluate;
    var s' := Dropped(s, i, true, now);
    DroppedSound(s, i, true, now);
    ReevaluateSound(s', now);
    SettledAdvances(s, s', Reevaluate(s', now));
  }

  /** Giving a connection up without an announcement. */
  lemma ClearedAdvances(s: Server, i: Slot, now: nat)
    requires Inv(s)
    ensures Advances(s, Reevaluate(Cleared(s, i), now))
  {
    hide Cleared, Reevaluate;
    ClearedSound(s, i);
    ClearedHeader(s, i);
    ReevaluateSound(Cleared(s, i), now);
    SettledAdvances(s, Cleared(s, i), Reevaluate(Cleared(s, i), now));
  }

  lemma ClearedHeader(s: Server, i: Slot)
    ensures Cleared(s, i) == s.(players := Cleared(s, i).players)
  {
  }

  /** Everybody has the standing in the match that they had. */
  ghost predicate SameStanding(ps: Table, qs: Table) {
    forall k :: 0 <= k < MAX_PLAYERS ==>
      && (ps[k].connected ==> qs[k].connected)
      && IsAdmitted(qs[k]) == IsAdmitted(ps[k])
      && (IsAdmitted(ps[k]) ==>
            qs[k].alive == ps[k].alive && qs[k].waiting == ps[k].waiting && qs[k].choice == ps[k].choice)
  }

  lemma SameStandingAdvances(s: Server, r: Server)
    requires Inv(s) && Records(r) && r.phase == s.phase && r.joinDeadline == s.joinDeadline
    requires SameStanding(s.players, r.players)
    ensures Advances(s, r)
  {
    forall k | 0 <= k < MAX_PLAYERS
      ensures IsAlive(r.players[k]) == IsAlive(s.players[k]) && IsWinner(r.players[k]) == IsWinner(s.players[k])
      ensures r.players[k].connected && (r.players[k].admitted || r.players[k].alive || r.players[k].waiting) ==>
                IsAdmitted(r.players[k])
    {
      if r.players[k].connected {
        assert PlayerOk(r.players[k], r.nextId);
      }
    }
    assert forall c :: HasType(r.players, c) <==> HasType(s.players, c);
  }

  /** Changing one slot without touching what the rest of the invariant looks at. */
  lemma PlayerChangeAdvances(s: Server, i: Slot, p: Player)
    requires Inv(s) && s.players[i].connected && PlayerOk(p, s.nextId)
    requires var q := s.players[i];
             && p.connected && p.id == q.id
             && (p.registered && !(q.registered && p.name == q.name) ==> !NameTaken(s.players, p.name))
             && p.admitted == q.admitted && p.alive == q.alive && p.waiting == q.waiting
             && (q.admitted ==> p.choice == q.choice && p.registered)
    ensures Advances(s, WithPlayer(s, i, p))
  {
    var r := WithPlayer(s, i, p);
    assert forall k :: 0 <= k < MAX_PLAYERS && k != i ==> r.players[k] == s.players[k];
    assert PlayerOk(s.players[i], s.nextId);
    hide Advances, IsWinner, IsAlive;
    SameStandingAdvances(s, r);
  }

  // ---------------------------------------------------------------- commands

  lemma ToldOk(p: Player, line: string)
    ensures var q := Told(p, line);
            q == p.(outbuf := q.outbuf) && p.outbuf <= q.outbuf && (|p.outbuf| <= OUTBUF_SIZE ==> |q.outbuf| <= OUTBUF_SIZE)
  {
    assert p == p.(outbuf := p.outbuf);
    match Enqueued(p.outbuf, line)
    case None =>
    case Some(outbuf) => assert outbuf == p.outbuf + Frame(line);
  }

  lemma {:induction false} ToldAllOk(p: Player, lines: seq<string>)
    ensures var q := ToldAll(p, lines);
            q == p.(outbuf := q.outbuf) && p.outbuf <= q.outbuf && (|p.outbuf| <= OUTBUF_SIZE ==> |q.outbuf| <= OUTBUF_SIZE)
    decreases |lines|
  {
    if lines != [] {
      ToldOk(p, lines[0]);
      ToldAllOk(Told(p, lines[0]), lines[1..]);
    }
  }

  lemma TellAdvances(s: Server, i: Slot, line: string)
    requires Inv(s) && s.players[i].connected
    ensures Advances(s, Tell(s, i, line))
  {
    hide Told;
    var p := s.players[i];
    ToldOk(p, line);
    assert PlayerOk(Told(p, line), s.nextId);
    PlayerChangeAdvances(s, i, Told(p, line));
  }

  lemma RefusedAdvances(s: Server, i: Slot, now: nat)
    requires Inv(s) && s.players[i].connected
    ensures Advances(s, Refused(s, i, now))
  {
    hide Cleared, Reevaluate;
    var p := s.players[i];
    match Enqueued(p.outbuf, "ERROR lobby_closed")
    case None => ClearedAdvances(s, i, now);
    case Some(outbuf) =>
      assert PlayerOk(p.(outbuf := outbuf), s.nextId);
      PlayerChangeAdvances(s, i, p.(outbuf := outbuf));
  }

  /** A slot that may be admitted: a ready registered player, or one cleared in the meantime. */
  ghost predicate Admissible(p: Player) {
    if p.connected then p.registered && !p.admitted && p.choiceChosen && p.spawnChosen else p == EMPTY_SLOT
  }

  ghost predicate Waits(p: Player) { p.admitted && p.waiting && !p.alive }

  /** Marking a slot as admitted, with some output. */
  function Marked(s: Server, i: Slot, outbuf: string): Server {
    WithPlayer(s, i, s.players[i].(admitted := true, waiting := true, outbuf := outbuf))
  }

  lemma MarkedSound(s: Server, i: Slot, outbuf: string)
    requires Sound(s) && s.phase == LobbyOpen && Admissible(s.players[i])
    requires s.players[i].connected ==> |outbuf| <= OUTBUF_SIZE
    ensures Sound(Marked(s, i, outbuf)) && Connected(Marked(s, i, outbuf).players) == Connected(s.players)
    ensures HasAdmitted(s.players) || s.players[i].connected ==> HasAdmitted(Marked(s, i, outbuf).players)
  {
    var r := Marked(s, i, outbuf);
    assert forall k :: 0 <= k < MAX_PLAYERS && k != i ==> r.players[k] == s.players[k];
    if s.players[i].connected {
      assert PlayerOk(s.players[i], s.nextId);
      assert PlayerOk(r.players[i], r.nextId);
      assert IsAdmitted(r.players[i]);
    } else if HasAdmitted(s.players) {
      var k :| 0 <= k < MAX_PLAYERS && IsAdmitted(s.players[k]);
      assert IsAdmitted(r.players[k]);
    }
  }

  lemma ClearedNested(s: Server, i: Slot, now: nat)
    requires Sound(s) && s.players[i].connected
    ensures Nested(s, Reevaluate(Cleared(s, i), now))
  {
    hide Reevaluate, Cleared, Nested, Settled;
    ClearedSound(s, i);
    ClearedHeader(s, i);
    ReevaluateSound(Cleared(s, i), now);
    SettledNested(s, Cleared(s, i), Reevaluate(Cleared(s, i), now));
  }

  /** What an admission leaves: the candidate, if it is still connected, waits for the match; the
      others are as they were; and the timer goes on exactly if somebody is left waiting. */
  ghost predicate Joined(s: Server, i: Slot, r: Server) {
    && Sound(r) && r.phase == LobbyOpen && r.nextId == s.nextId
    && Connected(r.players) <= Connected(s.players)
    && (forall k :: 0 <= k < MAX_PLAYERS && k != i ==> Survives(s.players[k], r.players[k]))
    && (r.players[i].connected ==>
          && s.players[i].connected && Waits(r.players[i])
          && Survives(s.players[i].(admitted := true, waiting := true), r.players[i]))
    && r.joinDeadline == if HasAdmitted(r.players) then s.joinDeadline else 0
  }

  /** From the marked table on, everything is sending and re-evaluation. */
  lemma MarkedJoined(s: Server, i: Slot, outbuf: string, r: Server)
    requires HasAdmitted(s.players) || s.joinDeadline == 0 || s.players[i].connected
    requires var m := Marked(s, i, outbuf);
             && s.players[i].outbuf <= outbuf && s.phase == LobbyOpen && Sound(m) && Nested(m, r)
             && Connected(m.players) == Connected(s.players)
             && (HasAdmitted(s.players) || s.players[i].connected ==> HasAdmitted(m.players))
    ensures Joined(s, i, r)
  {
    var m := Marked(s, i, outbuf);
    KeptAdmitted(m, r);
    hide Records, HasAdmitted;
    assert forall k :: 0 <= k < MAX_PLAYERS && k != i ==> m.players[k] == s.players[k];
    assert forall k :: 0 <= k < MAX_PLAYERS ==> Survives(m.players[k], r.players[k]);
  }

  lemma AdmittedJoins(s: Server, i: Slot, now: nat)
    requires Sound(s) && s.phase == LobbyOpen && Admissible(s.players[i])
    requires HasAdmitted(s.players) || s.joinDeadline == 0 || s.players[i].connected
    ensures Joined(s, i, Admitted(s, i, now))
  {
    var p := s.players[i];
    hide Broadcast, BroadcastGameState, Reevaluate, Cleared, Nested, Joined, Sound, Survives;
    match Enqueued(p.outbuf, "JOINED_MATCH")
    case None =>
      assert p.connected;
      MarkedSound(s, i, p.outbuf);
      var m := Marked(s, i, p.outbuf);
      assert m == WithPlayer(s, i, p.(admitted := true, waiting := true));
      ClearedNested(m, i, now);
      MarkedJoined(s, i, p.outbuf, Reevaluate(Cleared(m, i), now));
    case Some(outbuf) =>
      MarkedSound(s, i, outbuf);
      var m := Marked(s, i, outbuf);
      BroadcastSound(m, JoinedLine(p.name), now);
      var m2 := Broadcast(m, JoinedLine(p.name), now);
      NestedKept(m, m2);
      BroadcastGameStateSound(m2, now);
      NestedTransitive(m, m2, BroadcastGameState(m2, now));
      MarkedJoined(s, i, outbuf, BroadcastGameState(m2, now));
  }

  /** The guard of an admission, apart from the timer. */
  predicate IsCandidate(p: Player) {
    p.connected && p.registered && !p.admitted && p.choiceChosen && p.spawnChosen
  }

  predicate AllHaveRoom(ps: Table, line: string) {
    forall k :: 0 <= k < MAX_PLAYERS && ps[k].connected ==> Enqueued(ps[k].outbuf, line).Some?
  }

  lemma RoomMeansNobodyLost(ps: Table, line: string)
    ensures AllHaveRoom(ps, line) <==> Connected(MapConnected(ps, p => Delivered(p, line))) == Connected(ps)
  {
    hide Enqueued;
    var qs := MapConnected(ps, p => Delivered(p, line));
    assert forall k :: 0 <= k < MAX_PLAYERS ==> (k in Connected(ps) <==> ps[k].connected);
    assert forall k :: 0 <= k < MAX_PLAYERS ==> (k in Connected(qs) <==> qs[k].connected);
    forall k | 0 <= k < MAX_PLAYERS && ps[k].connected
      ensures qs[k].connected <==> Enqueued(ps[k].outbuf, line).Some?
    {
    }
  }

  const OPENING := Text.LobbyOpenLine(JOIN_WINDOW_SECONDS)

  /** The state in which the first candidate is admitted: the timer has been started and announced. */
  function Opened(s: Server, now: nat): Server {
    Broadcast(s.(joinDeadline := now + JOIN_WINDOW_SECONDS), OPENING, now)
  }

  lemma OpenedSound(s: Server, i: Slot, now: nat)
    requires Sound(s) && s.phase == LobbyOpen && IsCandidate(s.players[i])
    ensures var b := Opened(s, now);
            && Sound(b) && Kept(s, b) && b.phase == LobbyOpen && Admissible(b.players[i])
            && (b.joinDeadline == 0 || HasAdmitted(b.players) || b.players[i].connected)
            && (!HasAdmitted(s.players) ==> (b.joinDeadline != 0 <==> AllHaveRoom(s.players, OPENING)))
  {
    var s0 := s.(joinDeadline := now + JOIN_WINDOW_SECONDS);
    BroadcastSound(s0, OPENING, now);
    BroadcastTouchesDelivered(s0, OPENING, now, i);
    var b := Opened(s, now);
    RoomMeansNobodyLost(s.players, OPENING);
    assert Survives(s.players[i], b.players[i]);
    assert i in Connected(s.players);
    KeptAdmitted(s0, b);
    hide Broadcast, MapConnected;
    if Connected(b.players) == Connected(s.players) {
      assert i in Connected(b.players);
    }
  }

  /** In the lobby a broadcast delivers and prunes, and no more. */
  lemma BroadcastTouchesDelivered(s: Server, line: string, now: nat, i: Slot)
    requires Sound(s) && s.phase == LobbyOpen
    ensures Broadcast(s, line, now).players == MapConnected(s.players, p => Delivered(p, line))
    ensures var p := Broadcast(s, line, now).players[i];
            s.players[i].connected && !p.connected ==> p == EMPTY_SLOT
  {
    var s' := s.(players := MapConnected(s.players, p => Delivered(p, line)));
    assert s'.phase == LobbyOpen;
  }

  /** Which of its four outcomes an admission has, and what each leaves. */
  lemma MaybeAdmitDecides(s: Server, i: Slot, now: nat)
    requires Inv(s) && IsCandidate(s.players[i])
    ensures var r := MaybeAdmit(s, i, now);
            if s.phase != LobbyOpen || (s.joinDeadline != 0 && now >= s.joinDeadline) then
              Advances(s, r) && !IsAdmitted(r.players[i])
            else if s.joinDeadline != 0 then
              Joined(s, i, r)
            else
              Joined(Opened(s, now), i, r)
  {
    hide Sound, Joined, Admitted, Broadcast, Kept, HasAdmitted;
    if s.phase != LobbyOpen || (s.joinDeadline != 0 && now >= s.joinDeadline) {
      RefusedAdvances(s, i, now);
      RefusedNotAdmitted(s, i, now);
    } else if s.joinDeadline != 0 {
      AdmittedJoins(s, i, now);
    } else {
      OpenedSound(s, i, now);
      AdmittedJoins(Opened(s, now), i, now);
    }
  }

  lemma RefusedNotAdmitted(s: Server, i: Slot, now: nat)
    requires Inv(s) && IsCandidate(s.players[i])
    ensures !IsAdmitted(Refused(s, i, now).players[i])
  {
    if Enqueued(s.players[i].outbuf, "ERROR lobby_closed").None? {
      ClearedSound(s, i);
      ReevaluateSound(Cleared(s, i), now);
      hide Reevaluate, Sound;
      assert Survives(Cleared(s, i).players[i], Reevaluate(Cleared(s, i), now).players[i]);
    }
  }

  lemma JoinedAdmits(s: Server, b: Server, i: Slot, r: Server)
    requires Inv(s) && s.phase == LobbyOpen && Kept(s, b) && Joined(b, i, r) && IsCandidate(s.players[i])
    requires TimerExact(s) && Connected(s.players) <= Connected(r.players) ==> b.joinDeadline != 0
    ensures Admits(s, r)
  {
    hide Records, HasAdmitted;
    KeptAdmitted(s, b);
    if Connected(s.players) <= Connected(r.players) && HasWinner(s.players) {
      var k :| 0 <= k < MAX_PLAYERS && IsWinner(s.players[k]);
      assert k != i && k in Connected(s.players);
      assert Survives(s.players[k], b.players[k]) && Survives(b.players[k], r.players[k]);
    }
  }

  /** If nobody is lost by the end of the admission, nobody was lost when the timer was announced. */
  lemma OpenedUnlessLost(s: Server, i: Slot, now: nat)
    requires Inv(s) && s.phase == LobbyOpen && s.joinDeadline == 0 && IsCandidate(s.players[i])
    requires Joined(Opened(s, now), i, MaybeAdmit(s, i, now))
    ensures TimerExact(s) && Connected(s.players) <= Connected(MaybeAdmit(s, i, now).players) ==>
              Opened(s, now).joinDeadline != 0
  {
    OpenedSound(s, i, now);
    RoomMeansNobodyLost(s.players, OPENING);
    BroadcastTouchesDelivered(s.(joinDeadline := now + JOIN_WINDOW_SECONDS), OPENING, now, i);
    hide MaybeAdmit, Broadcast, Kept, AllHaveRoom;
  }

  lemma MaybeAdmitAdmits(s: Server, i: Slot, now: nat)
    requires Inv(s) && s.players[i].connected
    ensures Admits(s, MaybeAdmit(s, i, now))
  {
    hide Refused, Admitted, Broadcast, Joined, Kept, Progresses;
    if IsCandidate(s.players[i]) {
      MaybeAdmitDecides(s, i, now);
      if s.phase == LobbyOpen && s.joinDeadline == 0 {
        OpenedSound(s, i, now);
        OpenedUnlessLost(s, i, now);
        JoinedAdmits(s, Opened(s, now), i, MaybeAdmit(s, i, now));
      } else if s.phase == LobbyOpen && now < s.joinDeadline {
        NestedReflexive(s);
        NestedKept(s, s);
        JoinedAdmits(s, s, i, MaybeAdmit(s, i, now));
      }
    } else {
      NestedReflexive(s);
      NestedAdvances(s, s);
    }
  }

  lemma AdvancesTransitive(a: Server, b: Server, c: Server)
    requires Advances(a, b)
    requires Connected(b.players) == Connected(a.players)
    ensures Advances(b, c) ==> Advances(a, c)
    ensures Admits(b, c) ==> Admits(a, c)
  {
    hide Inv;
  }

  /** CHOICE and SPAWN record something about an unadmitted player and then try to admit it. */
  lemma ChangeAndAdmit(s: Server, i: Slot, p: Player, now: nat)
    requires Inv(s) && s.players[i].connected && PlayerOk(p, s.nextId)
    requires var q := s.players[i];
             && q.registered && !q.admitted
             && p == q.(choice := p.choice, choiceChosen := p.choiceChosen, x := p.x, y := p.y,
                        spawnChosen := p.spawnChosen, outbuf := p.outbuf)
    ensures Admits(s, MaybeAdmit(WithPlayer(s, i, p), i, now))
  {
    hide MaybeAdmit, Inv;
    var s1 := WithPlayer(s, i, p);
    PlayerChangeAdvances(s, i, p);
    assert Connected(s1.players) == Connected(s.players) by {
      assert forall k :: 0 <= k < MAX_PLAYERS ==> s1.players[k].connected == s.players[k].connected;
    }
    MaybeAdmitAdmits(s1, i, now);
    AdvancesTransitive(s, s1, MaybeAdmit(s1, i, now));
  }

  lemma HelloAdvances(s: Server, i: Slot, name: Option<Name>, now: nat)
    requires Inv(s) && s.players[i].connected
    ensures Advances(s, HandleHello(s, i, name, now))
  {
    hide ToldAll, Tell, LobbyStatusLines;
    var p := s.players[i];
    if p.registered || name.None? || NameTaken(s.players, name.value) {
      TellAdvances(s, i, "ERROR already_registered");
      TellAdvances(s, i, "ERROR usage_HELLO_name");
      TellAdvances(s, i, "ERROR duplicate_name");
    } else {
      var q := FreshProgress(p.(name := name.value, registered := true));
      var lines := [WelcomeLine(p.id), "SPECTATING"] + LobbyStatusLines(s, now);
      ToldAllOk(q, lines);
      assert PlayerOk(p, s.nextId);
      assert p == FreshProgress(p);
      assert PlayerOk(ToldAll(q, lines), s.nextId);
      PlayerChangeAdvances(s, i, ToldAll(q, lines));
    }
  }

  lemma ChooseAdmits(s: Server, i: Slot, arg: Option<string>, now: nat)
    requires Inv(s) && s.players[i].connected
    ensures Admits(s, HandleChoose(s, i, arg, now))
  {
    hide Tell, MaybeAdmit, Told, Progresses;
    TellAdvances(s, i, "ERROR register_first");
    TellAdvances(s, i, "ERROR already_joined");
    TellAdvances(s, i, "ERROR bad_choice");
    var p := s.players[i];
    if p.registered && !p.admitted && ParseChoice(arg).Some? {
      var c := ParseChoice(arg).value;
      var q := p.(choice := c, choiceChosen := true);
      ToldOk(q, ChoiceOkLine(c));
      assert PlayerOk(p, s.nextId);
      assert PlayerOk(Told(q, ChoiceOkLine(c)), s.nextId);
      ChangeAndAdmit(s, i, Told(q, ChoiceOkLine(c)), now);
    }
  }

  lemma SpawnAdmits(s: Server, i: Slot, at: Option<(real, real)>, now: nat)
    requires Inv(s) && s.players[i].connected
    ensures Admits(s, HandleSpawn(s, i, at, now))
  {
    hide Tell, MaybeAdmit, Told, Progresses;
    TellAdvances(s, i, "ERROR register_first");
    TellAdvances(s, i, "ERROR already_joined");
    TellAdvances(s, i, "ERROR usage_SPAWN_x_y");
    TellAdvances(s, i, "ERROR bad_spawn");
    TellAdvances(s, i, "ERROR spawn_taken");
    var p := s.players[i];
    if p.registered && !p.admitted && at.Some? && InBox(at.value.0, at.value.1) {
      var (x, y) := at.value;
      var q := p.(x := x, y := y, spawnChosen := true);
      ToldOk(q, SpawnOkLine(x, y));
      assert PlayerOk(p, s.nextId);
      assert PlayerOk(Told(q, SpawnOkLine(x, y)), s.nextId);
      ChangeAndAdmit(s, i, Told(q, SpawnOkLine(x, y)), now);
    }
  }

  lemma GetStateAdvances(s: Server, i: Slot, now: nat)
    requires Inv(s) && s.players[i].connected
    ensures Advances(s, HandleGetState(s, i, now))
  {
    hide Cleared, Reevaluate, EnqueuedAll, SnapshotLines;
    var p := s.players[i];
    var lines := SnapshotLines(s, p, now);
    EnqueuedAllGrows(p.outbuf, lines);
    match EnqueuedAll(p.outbuf, lines)
    case None => ClearedAdvances(s, i, now);
    case Some(outbuf) =>
      assert PlayerOk(p, s.nextId);
      assert PlayerOk(p.(outbuf := outbuf), s.nextId);
      PlayerChangeAdvances(s, i, p.(outbuf := outbuf));
  }

  lemma CommandAdvances(s: Server, i: Slot, c: Command, now: nat)
    requires Inv(s) && s.players[i].connected && !(c.Rematch? && s.phase == GameOver)
    ensures Admits(s, HandleCommand(s, i, c, now))
    ensures !c.Choose? && !c.Spawn? ==> Advances(s, HandleCommand(s, i, c, now))
  {
    hide Progresses, HandleHello, HandleChoose, HandleSpawn, HandleGetState, Tell, Dropped, Reevaluate, FinishRepicks;
    match c
    case Unknown => TellAdvances(s, i, "ERROR bad_command");
    case Hello(name) => HelloAdvances(s, i, name, now);
    case Choose(arg) => ChooseAdmits(s, i, arg, now);
    case Spawn(at) => SpawnAdmits(s, i, at, now);
    case PickAgain(arg) => TellAdvances(s, i, "ERROR not_in_repick_phase");
    case GetState => GetStateAdvances(s, i, now);
    case Rematch => TellAdvances(s, i, "ERROR rematch_not_available");
    case Quit => LostAdvances(s, i, now);
  }
}
