/** Who is told what at the end of a match. Whichever event ends it, and whatever is dropped on the way,
    every registered player that stays is told its own result in that event, and no other. */
module Results {
  import opened Common
  import opened Text
  import opened Protocol
  import opened Game
  import opened Chase
  import opened ChaseGeometry
  import opened ServerState
  import opened ServerCommands
  import opened ServerInvariant
  import opened ServerRuns
  import opened RunInvariant
  import opened MatchRuns
  import opened SnapshotText
  import opened Sending
  import opened News

  predicate IsResult(line: string) { "GAME_OVER" <= line }

  function ResultOf(p: Player): string {
    if !p.admitted then "GAME_OVER" else if p.alive || p.waiting then "GAME_OVER WIN" else "GAME_OVER LOSE"
  }

  /** All results among these lines are those of `q`, and if the match has ended there is one. */
  predicate TellsResult(lines: seq<string>, q: Player, over: bool) {
    && (forall l :: l in lines && IsResult(l) ==> q.registered && l == ResultOf(q))
    && (over && q.registered ==> ResultOf(q) in lines)
  }

  /** No result is among these lines. */
  predicate TellsNone(lines: seq<string>) { forall l :: l in lines ==> !IsResult(l) }

  /** From `p` to `q`, what a slot that stays was sent tells it its result. */
  ghost predicate Honest(p: Player, q: Player, over: bool) {
    q.connected ==> p.connected && Extends(p.outbuf, q.outbuf) && TellsResult(Gained(p.outbuf, q.outbuf), q, over)
  }

  ghost predicate Quiet(p: Player, q: Player) {
    q.connected ==> p.connected && Extends(p.outbuf, q.outbuf) && TellsNone(Gained(p.outbuf, q.outbuf))
  }

  ghost predicate AllQuiet(ps: Table, qs: Table) { forall k: Slot :: Quiet(ps[k], qs[k]) }

  predicate Ends(s: Server, r: Server) { s.phase != GameOver && r.phase == GameOver }

  ghost predicate AllHonest(ps: Table, qs: Table, over: bool) { forall k: Slot :: Honest(ps[k], qs[k], over) }

  /** Results are told honestly, and only once the winners agree. */
  ghost predicate Informs(s: Server, r: Server) {
    && AllHonest(s.players, r.players, Ends(s, r))
    && (AllQuiet(s.players, r.players) || Unanimous(r.players))
  }

  // ---------------------------------------------------------------- composing

  lemma HonestThen(p: Player, q: Player, o: Player, over: bool, over': bool)
    requires Honest(p, q, over) && Honest(q, o, over') && Survives(q, o)
    ensures Honest(p, o, over || over')
  {
    hide Extends, Gained;
    if o.connected {
      GainedTwice(p.outbuf, q.outbuf, o.outbuf);
      assert ResultOf(o) == ResultOf(q) && o.registered == q.registered;
      hide ResultOf;
    }
  }

  lemma QuietThen(p: Player, q: Player, o: Player)
    requires Quiet(p, q) && Quiet(q, o)
    ensures Quiet(p, o)
  {
    hide Extends, Gained;
    if o.connected {
      GainedTwice(p.outbuf, q.outbuf, o.outbuf);
    }
  }

  lemma LessHonest(p: Player, q: Player, over: bool, over': bool)
    requires Honest(p, q, over) && (over' ==> over)
    ensures Honest(p, q, over')
  {
  }

  lemma InformsThen(a: Server, b: Server, c: Server)
    requires Informs(a, b) && Informs(b, c) && Kept(b, c)
    ensures Informs(a, c)
  {
    forall k: Slot
      ensures Honest(a.players[k], c.players[k], Ends(a, c))
    {
      assert Honest(a.players[k], b.players[k], Ends(a, b)) && Honest(b.players[k], c.players[k], Ends(b, c));
      assert Survives(b.players[k], c.players[k]);
      hide Honest, Survives;
      HonestThen(a.players[k], b.players[k], c.players[k], Ends(a, b), Ends(b, c));
      LessHonest(a.players[k], c.players[k], Ends(a, b) || Ends(b, c), Ends(a, c));
    }
    if AllQuiet(a.players, b.players) && AllQuiet(b.players, c.players) {
      forall k: Slot
        ensures Quiet(a.players[k], c.players[k])
      {
        assert Quiet(a.players[k], b.players[k]) && Quiet(b.players[k], c.players[k]);
        hide Quiet;
        QuietThen(a.players[k], b.players[k], c.players[k]);
      }
    } else {
      hide Honest, Quiet;
      if Unanimous(b.players) {
        KeptUnanimous(b, c);
      }
    }
  }

  lemma KeptUnanimous(s: Server, r: Server)
    requires Kept(s, r) && Unanimous(s.players)
    ensures Unanimous(r.players)
  {
    forall i, j | 0 <= i < j < MAX_PLAYERS && IsWinner(r.players[i]) && IsWinner(r.players[j])
      ensures r.players[i].choice == r.players[j].choice
    {
      assert Survives(s.players[i], r.players[i]) && Survives(s.players[j], r.players[j]);
    }
  }

  lemma QuietHonest(p: Player, q: Player)
    requires Quiet(p, q)
    ensures Honest(p, q, false)
  {
  }

  lemma QuietInforms(s: Server, r: Server)
    requires AllQuiet(s.players, r.players) && !Ends(s, r)
    ensures Informs(s, r)
  {
    forall k: Slot
      ensures Honest(s.players[k], r.players[k], false)
    {
      assert Quiet(s.players[k], r.players[k]);
      QuietHonest(s.players[k], r.players[k]);
    }
    hide Honest, Quiet;
  }

  lemma SameOutputQuiet(ps: Table, qs: Table)
    requires forall k: Slot :: qs[k].connected ==> ps[k].connected && qs[k].outbuf == ps[k].outbuf
    ensures AllQuiet(ps, qs)
  {
    hide Extends, Gained;
    forall k: Slot
      ensures Quiet(ps[k], qs[k])
    {
      ExtendsNothing(ps[k].outbuf);
      GainedNothing(ps[k].outbuf);
    }
  }

  lemma InformsItself(s: Server)
    ensures Informs(s, s)
  {
    hide Informs, AllQuiet;
    SameOutputQuiet(s.players, s.players);
    QuietInforms(s, s);
  }

  // ---------------------------------------------------------------- texts

  lemma DeliveredQuiet(p: Player, line: string)
    requires p.connected && Plain(line) && !IsResult(line)
    ensures Quiet(p, Delivered(p, line))
  {
    hide Extends, Gained, Plain;
    if Enqueued(p.outbuf, line).Some? {
      GainedLine(p.outbuf, line);
      ExtendsLine(p.outbuf, line);
    }
  }

  lemma DeliveredAllQuiet(p: Player, lines: seq<string>)
    requires p.connected && AllPlain(lines) && TellsNone(lines)
    ensures Quiet(p, DeliveredAll(p, lines))
  {
    hide Extends, Gained, EnqueuedAll, AllPlain;
    if EnqueuedAll(p.outbuf, lines).Some? {
      GainedAll(p.outbuf, lines);
    }
  }

  /** Lines with the right results, delivered. */
  lemma DeliveredAllHonest(p: Player, lines: seq<string>, over: bool)
    requires p.connected && AllPlain(lines) && TellsResult(lines, p, over)
    ensures Honest(p, DeliveredAll(p, lines), over)
  {
    hide Extends, Gained, EnqueuedAll, AllPlain;
    if EnqueuedAll(p.outbuf, lines).Some? {
      GainedAll(p.outbuf, lines);
      assert ResultOf(DeliveredAll(p, lines)) == ResultOf(p) && DeliveredAll(p, lines).registered == p.registered;
      hide ResultOf;
    }
  }

  lemma ResultTold(p: Player)
    requires p.connected && (p.admitted ==> p.registered)
    ensures TellsResult(GameOverLines(p), p, true)
  {
  }

  lemma {:induction false} PositionsTellNone(ps: seq<Player>)
    ensures TellsNone(PlayerLines(ps))
  {
    if ps != [] {
      PositionsTellNone(ps[..|ps| - 1]);
      PositionTellsNone(ps[|ps| - 1]);
    }
    hide PlayerLine;
  }

  lemma PositionTellsNone(p: Player)
    ensures !IsResult(PlayerLine(p))
  {
    hide Fixed3;
    assert PlayerLine(p)[0] == 'P';
    BeginsElsewhere(PlayerLine(p));
  }

  lemma BeginsElsewhere(line: string)
    requires line != "" && line[0] != 'G'
    ensures !IsResult(line)
  {
    assert "GAME_OVER"[0] == 'G';
  }

  lemma HeadersTellNone(s: Server, p: Player, now: nat)
    requires s.phase != GameOver
    ensures TellsNone(HeaderLines(s, p, now))
  {
    hide Decimal, SecondsLeft, IsResult;
    BeginsElsewhere("LOBBY_WAITING");
    BeginsElsewhere("LOBBY_CLOSED");
    BeginsElsewhere("REPICK_START");
    BeginsElsewhere(LobbyOpenLine(SecondsLeft(s.joinDeadline, now)));
    BeginsElsewhere(SetupOpenLine(SecondsLeft(s.setupDeadline, now)));
    BeginsElsewhere(RoundStartLine(s.roundNo, SecondsLeft(s.roundDeadline, now)));
    hide LobbyOpenLine, SetupOpenLine, RoundStartLine;
  }

  /** A snapshot tells a result only when the match is over, and then that of its receiver. */
  lemma SnapshotTells(s: Server, p: Player, now: nat)
    requires p.connected && (p.admitted ==> p.registered)
    ensures TellsResult(SnapshotLines(s, p, now), p, s.phase == GameOver)
    ensures s.phase != GameOver ==> TellsNone(SnapshotLines(s, p, now))
  {
    PositionsTellNone(s.players);
    ResultTold(p);
    if s.phase != GameOver {
      HeadersTellNone(s, p, now);
    } else {
      assert HeaderLines(s, p, now) == GameOverLines(p);
    }
    BeginsElsewhere("STATE_BEGIN");
    BeginsElsewhere("STATE_END");
    hide HeaderLines, PlayerLines, GameOverLines, IsResult, ResultOf;
  }

  // ---------------------------------------------------------------- the recursion

  lemma EndGameInforms(s: Server)
    requires Records(s) && Unanimous(s.players)
    ensures Informs(s, EndGame(s))
  {
    var r := EndGame(s);
    EndGameSound(s);
    forall k: Slot
      ensures Honest(s.players[k], r.players[k], Ends(s, r))
    {
      EndedSlot(s, k);
      LessHonest(s.players[k], r.players[k], true, Ends(s, r));
    }
    hide Honest, EndGame, AllQuiet;
  }

  lemma EndedSlot(s: Server, k: Slot)
    requires Records(s)
    ensures Honest(s.players[k], EndGame(s).players[k], true)
  {
    var p := s.players[k];
    hide Extends, Gained, DeliveredAll, AllPlain, GameOverLines, TellsResult;
    if p.connected {
      assert PlayerOk(p, s.nextId);
      hide PlayerOk;
      ResultPlain(p);
      ResultTold(p);
      DeliveredAllHonest(p, GameOverLines(p), true);
    }
  }

  lemma DeliveringQuiet(ps: Table, line: string)
    requires Plain(line) && !IsResult(line)
    ensures AllQuiet(ps, MapConnected(ps, p => Delivered(p, line)))
  {
    hide Quiet, Delivered, Plain, IsResult;
    var qs := MapConnected(ps, p => Delivered(p, line));
    forall k: Slot
      ensures Quiet(ps[k], qs[k])
    {
      if ps[k].connected {
        DeliveredQuiet(ps[k], line);
      } else {
        UnconnectedQuiet(ps[k]);
      }
    }
  }

  lemma UnconnectedQuiet(p: Player)
    requires !p.connected
    ensures Quiet(p, p)
  {
  }

  lemma {:induction false} BroadcastInforms(s: Server, line: string, now: nat)
    requires Sound(s) && Plain(line) && !IsResult(line)
    ensures Informs(s, Broadcast(s, line, now))
    decreases Connected(s.players), 1, 0
  {
    var s' := s.(players := MapConnected(s.players, p => Delivered(p, line)));
    DeliveringQuiet(s.players, line);
    BroadcastPrunes(s.players, line);
    PrunedKeeps(s, s');
    hide AllQuiet, Informs, Kept, Records, MapConnected, IsResult;
    QuietInforms(s, s');
    if Connected(s'.players) != Connected(s.players) {
      ReevaluateInforms(s', now);
      ReevaluateKeeps(s', now);
      InformsThen(s, s', Reevaluate(s', now));
    }
  }

  lemma ReevaluateKeeps(s: Server, now: nat)
    requires Sound(s)
    ensures Kept(s, Reevaluate(s, now)) && Sound(Reevaluate(s, now))
  {
    hide Reevaluate, Kept, Sound;
    ReevaluateSound(s, now);
    SettledMeans(s, Reevaluate(s, now));
  }

  lemma SettledMeans(s: Server, r: Server)
    requires Settled(s, r)
    ensures Kept(s, r) && Sound(r)
  {
  }

  lemma NestedMeans(s: Server, r: Server)
    requires Nested(s, r)
    ensures Kept(s, r) && Sound(r)
  {
  }

  lemma {:induction false} PositionsInform(s: Server, n: nat, now: nat)
    requires Sound(s) && n <= MAX_PLAYERS
    ensures Informs(s, PositionsUpTo(s, n, now))
    decreases Connected(s.players), 2, n
  {
    hide Sound, Nested, Broadcast, Informs, Plain, PlayerLine, Kept, IsResult;
    if n == 0 {
      InformsItself(s);
    } else {
      var m := PositionsUpTo(s, n - 1, now);
      PositionsInform(s, n - 1, now);
      PositionsSound(s, n - 1, now);
      NestedMeans(s, m);
      if IsAdmitted(m.players[n - 1]) {
        var line := PlayerLine(m.players[n - 1]);
        PositionPlain(m, n - 1);
        PositionTellsNone(m.players[n - 1]);
        BroadcastInforms(m, line, now);
        BroadcastSound(m, line, now);
        NestedMeans(m, Broadcast(m, line, now));
        InformsThen(s, m, Broadcast(m, line, now));
      }
    }
  }

  lemma RoundStartTellsNone(roundNo: int, n: int)
    ensures Plain(RoundStartLine(roundNo, n)) && !IsResult(RoundStartLine(roundNo, n))
  {
    RoundStartPlain(roundNo, n);
    hide Decimal, Plain;
    BeginsElsewhere(RoundStartLine(roundNo, n));
  }

  lemma {:induction false} StartActiveRoundInforms(s: Server, now: nat)
    requires Records(s)
    ensures Informs(s, StartActiveRound(s, now)) && Kept(s, StartActiveRound(s, now))
    decreases Connected(s.players), 4, 0
  {
    var s1 := StartRound(s, now);
    var line := RoundStartLine(s1.roundNo, ROUND_SECONDS);
    StartRoundSound(s, now);
    SameOutputQuiet(s.players, s1.players);
    RoundStartTellsNone(s1.roundNo, ROUND_SECONDS);
    assert !Ends(s, s1);
    hide Sound, Kept, Broadcast, PositionsUpTo, Informs, AllQuiet, Plain, StartRound, RoundStartLine, Nested, IsResult;
    QuietInforms(s, s1);
    BroadcastSound(s1, line, now);
    var s2 := Broadcast(s1, line, now);
    NestedMeans(s1, s2);
    BroadcastInforms(s1, line, now);
    InformsThen(s, s1, s2);
    PositionsInform(s2, MAX_PLAYERS, now);
    PositionsSound(s2, MAX_PLAYERS, now);
    var s3 := BroadcastPositions(s2, now);
    NestedMeans(s2, s3);
    InformsThen(s, s2, s3);
    SurvivesTransitive(s, s1, s2);
    SurvivesTransitive(s, s2, s3);
  }

  lemma {:induction false} ReevaluateInforms(s: Server, now: nat)
    requires Sound(s)
    ensures Informs(s, Reevaluate(s, now))
    decreases Connected(s.players), 6, 0
  {
    var u := s.(joinDeadline := 0);
    assert s.phase == LobbyOpen ==> !Ends(s, u);
    ReevaluationCases(s, now);
    hide StartActiveRound, FinishRepicks, EndGame, CountIf, TypesAlive, Informs, AllQuiet, Records, Unanimous, Reevaluate;
    InformsItself(s);
    SameOutputQuiet(s.players, u.players);
    if Reevaluate(s, now) == u {
      QuietInforms(s, u);
    } else if s.phase == Setup && Reevaluate(s, now) == StartActiveRound(s, now) {
      StartActiveRoundInforms(s, now);
    } else if Reevaluate(s, now) != s {
      EndGameInforms(s);
    }
  }

  /** What a re-evaluation of a consistent state can come to. */
  lemma ReevaluationCases(s: Server, now: nat)
    requires Sound(s)
    ensures var r := Reevaluate(s, now);
            || r == s
            || (s.phase == LobbyOpen && r == s.(joinDeadline := 0))
            || (Unanimous(s.players) && Records(s) && r == EndGame(s) && s.phase != LobbyOpen)
            || (s.phase == Setup && r == StartActiveRound(s, now))
  {
    hide StartActiveRound, FinishRepicks, EndGame, CountIf;
    match s.phase
    case Setup => if AdmittedCount(s.players) < 2 { FewAdmittedUnanimous(s.players); }
    case RoundActive =>
      if AliveCount(s.players) <= 1 { FewAliveMeansOneType(s.players); }
      if TypesAlive(s.players) <= 1 { OneTypeUnanimous(s); }
    case _ =>
  }

  // ---------------------------------------------------------------- operations

  lemma OneInforms(s: Server, i: Slot, q: Player)
    requires Honest(s.players[i], q, false)
    requires Quiet(s.players[i], q) || Unanimous(WithPlayer(s, i, q).players)
    ensures Informs(s, WithPlayer(s, i, q))
  {
    var r := WithPlayer(s, i, q);
    SameOutputQuiet(s.players, s.players);
    forall k: Slot
      ensures Honest(s.players[k], r.players[k], false)
      ensures k != i ==> Quiet(s.players[k], r.players[k])
    {
      if k != i {
        assert Quiet(s.players[k], s.players[k]);
        QuietHonest(s.players[k], s.players[k]);
      }
    }
    hide Honest, Quiet, Unanimous;
  }

  lemma PrunedSound(s: Server, r: Server)
    requires Sound(s) && r == s.(players := r.players) && Pruned(s.players, r.players)
    ensures Sound(r) && Kept(s, r)
  {
    PrunedKeeps(s, r);
  }

  lemma OverIsUnanimous(s: Server)
    requires Sound(s) && s.phase == GameOver
    ensures Unanimous(s.players)
  {
  }

  lemma AdmittedIsRegistered(s: Server, i: Slot)
    requires Sound(s) && s.players[i].connected && s.players[i].admitted
    ensures s.players[i].registered
  {
    assert PlayerOk(s.players[i], s.nextId);
  }

  lemma OneSnapshotInforms(s: Server, i: Slot, now: nat)
    requires Sound(s) && IsRegistered(s.players[i])
    ensures var p := s.players[i]; Informs(s, WithPlayer(s, i, DeliveredAll(p, SnapshotLines(s, p, now))))
  {
    var p, lines := s.players[i], SnapshotLines(s, s.players[i], now);
    var q := DeliveredAll(p, lines);
    var r := WithPlayer(s, i, q);
    SoundRecords(s);
    SnapshotPlain(s, p, now);
    SnapshotTells(s, p, now);
    OneSnapshotPrunes(s, i, lines);
    PrunedSound(s, r);
    DeliveredAllHonest(p, lines, false);
    hide Sound, Honest, Quiet, SnapshotLines, DeliveredAll, AllPlain, Kept, Informs, Pruned, Records, Unanimous, TellsResult;
    if s.phase == GameOver {
      OverIsUnanimous(r);
    } else {
      DeliveredAllQuiet(p, lines);
    }
    OneInforms(s, i, q);
  }

  lemma OneSnapshotPrunes(s: Server, i: Slot, lines: seq<string>)
    requires s.players[i].connected
    ensures Pruned(s.players, WithPlayer(s, i, DeliveredAll(s.players[i], lines)).players)
  {
    EnqueuedAllGrows(s.players[i].outbuf, lines);
    hide EnqueuedAll;
    assert forall k: Slot :: s.players[k] == s.players[k].(outbuf := s.players[k].outbuf);
  }

  lemma {:induction false} SnapshotsInform(s: Server, n: nat, now: nat)
    requires Sound(s) && n <= MAX_PLAYERS
    ensures Informs(s, SnapshotsUpTo(s, n, now))
  {
    hide SnapshotLines, DeliveredAll, Sound, Informs, Pruned, Kept;
    if n == 0 {
      InformsItself(s);
    } else {
      var m, r := SnapshotsUpTo(s, n - 1, now), SnapshotsUpTo(s, n, now);
      SnapshotsInform(s, n - 1, now);
      SnapshotsPrune(s, n - 1, now);
      PrunedSound(s, m);
      var p := m.players[n - 1];
      if IsRegistered(p) {
        OneSnapshotInforms(m, n - 1, now);
        OneSnapshotPrunes(m, n - 1, SnapshotLines(m, p, now));
        PrunedSound(m, r);
        InformsThen(s, m, r);
      }
    }
  }

  lemma BroadcastGameStateInforms(s: Server, now: nat)
    requires Sound(s)
    ensures Informs(s, BroadcastGameState(s, now))
  {
    hide SnapshotsUpTo, Reevaluate, Informs, Sound, Kept;
    var s' := SnapshotsUpTo(s, MAX_PLAYERS, now);
    SnapshotsPrune(s, MAX_PLAYERS, now);
    PrunedSound(s, s');
    SnapshotsInform(s, MAX_PLAYERS, now);
    if Connected(s'.players) != Connected(s.players) {
      ReevaluateInforms(s', now);
      ReevaluateKeeps(s', now);
      InformsThen(s, s', Reevaluate(s', now));
    }
  }

  lemma AnnouncedInforms(s: Server, line: string, now: nat)
    requires Sound(s) && Plain(line) && !IsResult(line)
    ensures var r := BroadcastGameState(Broadcast(s, line, now), now);
            Informs(s, r) && Kept(s, r) && Sound(r)
  {
    hide Broadcast, BroadcastGameState, Informs, Sound, Plain, Kept, Nested, IsResult;
    BroadcastSound(s, line, now);
    var m := Broadcast(s, line, now);
    var r := BroadcastGameState(m, now);
    NestedMeans(s, m);
    BroadcastInforms(s, line, now);
    BroadcastGameStateInforms(m, now);
    BroadcastGameStateSound(m, now);
    NestedMeans(m, r);
    InformsThen(s, m, r);
    SurvivesTransitive(s, m, r);
  }

  lemma ClearedInforms(s: Server, i: Slot)
    ensures Informs(s, Cleared(s, i))
  {
    var r := Cleared(s, i);
    assert forall k: Slot :: k != i ==> r.players[k] == s.players[k];
    assert !Ends(s, r);
    hide Informs, AllQuiet, Cleared;
    SameOutputQuiet(s.players, r.players);
    QuietInforms(s, r);
  }

  lemma GivenUpInforms(s: Server, i: Slot, now: nat)
    requires Sound(s)
    ensures Informs(s, Reevaluate(Cleared(s, i), now))
  {
    ClearedInforms(s, i);
    ClearedSound(s, i);
    ClearedHeader(s, i);
    hide Cleared, Reevaluate, Informs, Records, Kept;
    ReevaluateInforms(Cleared(s, i), now);
    ReevaluateKeeps(Cleared(s, i), now);
    InformsThen(s, Cleared(s, i), Reevaluate(Cleared(s, i), now));
  }

  lemma LeftTellsNone(name: string)
    ensures !IsResult(LeftLine(name))
  {
    BeginsElsewhere(LeftLine(name));
  }

  lemma LostInforms(s: Server, i: Slot, now: nat)
    requires Sound(s)
    ensures Informs(s, Lost(s, i, now))
  {
    ClearedInforms(s, i);
    ClearedSound(s, i);
    DroppedSound(s, i, true, now);
    var s1, s2 := Cleared(s, i), Dropped(s, i, true, now);
    var p := s.players[i];
    if p.connected {
      PlainName(s, i);
      NamedPlain(p.name);
    }
    LeftTellsNone(p.name);
    hide Cleared, Broadcast, BroadcastGameState, Reevaluate, Informs, Records, Kept, Plain, IsResult, LeftLine;
    InformsItself(s);
    if p.connected && p.registered {
      AnnouncedInforms(s1, LeftLine(p.name), now);
      InformsThen(s, s1, s2);
    }
    assert Informs(s, s2);
    ReevaluateInforms(s2, now);
    ReevaluateKeeps(s2, now);
    InformsThen(s, s2, Reevaluate(s2, now));
  }

  // ---------------------------------------------------------------- the timers

  /** With one type left nobody can be captured, and nobody moves. */
  lemma {:induction false} UnanimousTurns(s: Server, n: nat, step: real, root: real -> real)
    requires Unanimous(s.players) && n <= MAX_PLAYERS
    ensures TickUpTo(s.players, n, step, root) == s.players
  {
    if n > 0 {
      UnanimousTurns(s, n - 1, step, root);
      var ps := s.players;
      NobodyIsPrey(ps, n - 1);
      assert NearestPrey(ps, n - 1, root) == NOBODY;
    }
  }

  lemma NobodyIsPrey(ps: seq<Player>, hunter: nat)
    requires Unanimous(ps) && hunter < |ps|
    ensures forall k :: 0 <= k < |ps| && IsAlive(ps[hunter]) ==> !IsEdible(ps, hunter, k)
  {
    forall k | 0 <= k < |ps| && IsAlive(ps[hunter]) && IsAlive(ps[k])
      ensures ps[k].choice == ps[hunter].choice
    {
      assert IsWinner(ps[hunter]) && IsWinner(ps[k]);
      assert k < hunter || k == hunter || hunter < k;
    }
  }

  lemma TickQuiet(s: Server, root: real -> real)
    ensures AllQuiet(s.players, Tick(s.players, CHASE_TICK_SECONDS, root))
  {
    var ps := s.players;
    TickShape(ps, CHASE_TICK_SECONDS, root);
    hide Tick, AllQuiet;
    var qs: Table := Tick(ps, CHASE_TICK_SECONDS, root);
    forall k: Slot
      ensures qs[k].connected == ps[k].connected && qs[k].outbuf == ps[k].outbuf
    {
      assert Chased(ps[k], qs[k]);
    }
    SameOutputQuiet(ps, qs);
  }

  /** What was told before a tick remains right: if it was a result, the tick captures nobody. */
  lemma TickInforms(s: Server, s1: Server, root: real -> real)
    requires Informs(s, s1) && s.phase != GameOver && s1.phase == RoundActive
    ensures Informs(s, s1.(players := Tick(s1.players, CHASE_TICK_SECONDS, root)))
  {
    var t := s1.(players := Tick(s1.players, CHASE_TICK_SECONDS, root));
    TickQuiet(s1, root);
    if Unanimous(s1.players) {
      UnanimousTurns(s1, MAX_PLAYERS, StepLength(CHASE_TICK_SECONDS), root);
      assert t == s1;
    } else {
      hide Tick, Unanimous;
      forall k: Slot
        ensures Quiet(s.players[k], t.players[k])
      {
        assert Quiet(s.players[k], s1.players[k]) && Quiet(s1.players[k], t.players[k]);
        hide Quiet;
        QuietThen(s.players[k], s1.players[k], t.players[k]);
      }
      hide Informs, Quiet;
      QuietInforms(s, t);
    }
  }

  lemma ChasingInforms(s: Server, s1: Server, now: nat, root: real -> real)
    requires Informs(s, s1) && s.phase != GameOver && Inv(s1) && s1.phase == RoundActive
    ensures Informs(s, Chasing(s1, now, root))
  {
    TickSound(s1, root);
    TickInforms(s, s1, root);
    hide Tick, Reevaluate, PositionsUpTo, Kept, Records, Informs, TypesAlive, Nested;
    var t := s1.(players := Tick(s1.players, CHASE_TICK_SECONDS, root));
    PositionsSound(t, MAX_PLAYERS, now);
    var m := BroadcastPositions(t, now);
    NestedMeans(t, m);
    PositionsInform(t, MAX_PLAYERS, now);
    InformsThen(s, t, m);
    if TypesAlive(t.players) <= 1 {
      ReevaluateInforms(m, now);
      ReevaluateKeeps(m, now);
      InformsThen(s, m, Reevaluate(m, now));
    }
  }

  lemma ClosingTellsNone()
    ensures Plain("LOBBY_CLOSED") && !IsResult("LOBBY_CLOSED")
    ensures var line := SetupOpenLine(SETUP_SECONDS); Plain(line) && !IsResult(line)
  {
    FixedStatus();
    NumberedPlain(SETUP_SECONDS);
    hide Decimal, IsResult, Plain;
    BeginsElsewhere("LOBBY_CLOSED");
    BeginsElsewhere(SetupOpenLine(SETUP_SECONDS));
  }

  lemma CloseLobbyInforms(s: Server, now: nat)
    requires Inv(s)
    ensures Informs(s, CloseLobby(s, now))
  {
    InformsItself(s);
    if LobbyIsOver(s, now) {
      var s0 := s.(phase := Setup, setupDeadline := now + SETUP_SECONDS);
      var line := SetupOpenLine(SETUP_SECONDS);
      ClosingTellsNone();
      SetupSound(s, s0);
      SameOutputQuiet(s.players, s0.players);
      hide Broadcast, StartActiveRound, EndGame, Informs, AllQuiet, Records, Plain, CountIf, AllAdmittedReady, Kept, IsResult, SetupOpenLine, Nested, Unanimous;
      QuietInforms(s, s0);
      BroadcastSound(s0, "LOBBY_CLOSED", now);
      var s1 := Broadcast(s0, "LOBBY_CLOSED", now);
      NestedMeans(s0, s1);
      BroadcastInforms(s0, "LOBBY_CLOSED", now);
      InformsThen(s, s0, s1);
      BroadcastSound(s1, line, now);
      var s2 := Broadcast(s1, line, now);
      NestedMeans(s1, s2);
      BroadcastInforms(s1, line, now);
      InformsThen(s, s1, s2);
      SoundRecords(s2);
      LobbyCloses(s, s2, now);
    }
  }

  lemma LobbyCloses(s: Server, s2: Server, now: nat)
    requires Inv(s) && LobbyIsOver(s, now) && Informs(s, s2) && Sound(s2) && Records(s2)
    requires s2 == Announced(s, now)
    ensures Informs(s, CloseLobby(s, now))
  {
    if AdmittedCount(s2.players) < 2 {
      FewAdmittedUnanimous(s2.players);
      EndGameSound(s2);
    } else {
      RecordsReady(s2);
    }
    hide Broadcast, StartActiveRound, EndGame, Informs, Sound, Records, CountIf, AllAdmittedReady, Kept, Unanimous;
    if AdmittedCount(s2.players) < 2 {
      EndGameInforms(s2);
      InformsThen(s, s2, EndGame(s2));
    } else {
      StartActiveRoundInforms(s2, now);
      InformsThen(s, s2, StartActiveRound(s2, now));
    }
  }

  lemma TimersInform(w: World, now: nat, clock: real, root: real -> real)
    requires Inv(w.server) && w.server.phase != GameOver
    ensures Informs(w.server, AdvanceTimers(w, now, clock, root).server)
  {
    hide Progresses, CloseLobby, Chasing, Kept, Informs, Sound;
    var s := w.server;
    ExpiryIsIdle(s, now);
    CloseLobbySettles(s, now);
    CloseLobbyInforms(s, now);
    var s1 := CloseLobby(s, now);
    ProgressesInv(s, s1);
    if TickDue(w, now, clock) {
      ChasingInforms(s, s1, now, root);
    }
  }

  // ---------------------------------------------------------------- one event

  /** CHOICE or SPAWN in a round: recorded, and then refused. */
  lemma RecordedInforms(s: Server, i: Slot, q: Player, line: string, now: nat)
    requires Inv(s) && s.phase == RoundActive && s.players[i].connected && PlayerOk(q, s.nextId) && Plain(line) && !IsResult(line)
    requires var p := s.players[i];
             && p.registered && !p.admitted
             && q == p.(choice := q.choice, choiceChosen := q.choiceChosen, x := q.x, y := q.y, spawnChosen := q.spawnChosen)
    requires MaybeAdmit(WithPlayer(s, i, Told(q, line)), i, now).phase == GameOver
    ensures Informs(s, MaybeAdmit(WithPlayer(s, i, Told(q, line)), i, now))
  {
    var q' := Told(q, line);
    var s1 := WithPlayer(s, i, q');
    ToldOk(q, line);
    assert PlayerOk(q', s.nextId);
    PlayerChangeAdvances(s, i, q');
    ToldQuiet(s.players[i], q, line);
    hide Told, Honest, Quiet, Informs, Cleared, Reevaluate, Extends, Plain, Records;
    QuietHonest(s.players[i], q');
    OneInforms(s, i, q');
    GivenUpInforms(s1, i, now);
    GivenUpKeeps(s1, i, now);
    InformsThen(s, s1, Reevaluate(Cleared(s1, i), now));
  }

  lemma ToldQuiet(p: Player, q: Player, line: string)
    requires p.connected && q.connected && q.outbuf == p.outbuf && Plain(line) && !IsResult(line)
    ensures Quiet(p, Told(q, line))
  {
    hide Extends, Gained, Plain;
    ExtendsNothing(p.outbuf);
    GainedNothing(p.outbuf);
    if Enqueued(q.outbuf, line).Some? {
      GainedLine(p.outbuf, line);
      ExtendsLine(p.outbuf, line);
    }
  }

  lemma GivenUpKeeps(s: Server, i: Slot, now: nat)
    requires Sound(s)
    ensures Kept(s, Reevaluate(Cleared(s, i), now))
  {
    ClearedSound(s, i);
    ClearedHeader(s, i);
    hide Cleared, Reevaluate, Kept;
    ReevaluateKeeps(Cleared(s, i), now);
    SurvivesTransitive(s, Cleared(s, i), Reevaluate(Cleared(s, i), now));
  }

  lemma ConfirmationsTellNone(c: char, x: real, y: real)
    requires IsRps(c)
    ensures Plain(ChoiceOkLine(c)) && !IsResult(ChoiceOkLine(c)) && Plain(SpawnOkLine(x, y)) && !IsResult(SpawnOkLine(x, y))
  {
    ChosenPlain(c);
    SpawnOkPlain(x, y);
    hide Fixed1, Plain;
    BeginsElsewhere(ChoiceOkLine(c));
    BeginsElsewhere(SpawnOkLine(x, y));
  }

  lemma ChooseInforms(s: Server, i: Slot, arg: Option<string>, now: nat)
    requires Inv(s) && s.phase == RoundActive && s.players[i].connected
    requires HandleChoose(s, i, arg, now).phase == GameOver
    ensures Informs(s, HandleChoose(s, i, arg, now))
  {
    hide MaybeAdmit, Told, Informs, Plain, ChoiceOkLine, IsResult;
    var p := s.players[i];
    if p.registered && !p.admitted && ParseChoice(arg).Some? {
      var c := ParseChoice(arg).value;
      ConfirmationsTellNone(c, 0.0, 0.0);
      assert PlayerOk(p, s.nextId);
      assert PlayerOk(p.(choice := c, choiceChosen := true), s.nextId);
      RecordedInforms(s, i, p.(choice := c, choiceChosen := true), ChoiceOkLine(c), now);
    }
  }

  lemma SpawnInforms(s: Server, i: Slot, at: Option<(real, real)>, now: nat)
    requires Inv(s) && s.phase == RoundActive && s.players[i].connected
    requires HandleSpawn(s, i, at, now).phase == GameOver
    ensures Informs(s, HandleSpawn(s, i, at, now))
  {
    hide MaybeAdmit, Told, Informs, Plain, SpawnOkLine, IsResult, SpawnTaken;
    var p := s.players[i];
    if p.registered && !p.admitted && at.Some? && InBox(at.value.0, at.value.1) {
      var (x, y) := at.value;
      ConfirmationsTellNone('R', x, y);
      assert PlayerOk(p, s.nextId);
      assert PlayerOk(p.(x := x, y := y, spawnChosen := true), s.nextId);
      RecordedInforms(s, i, p.(x := x, y := y, spawnChosen := true), SpawnOkLine(x, y), now);
    }
  }

  lemma CommandInforms(s: Server, i: Slot, c: Command, now: nat)
    requires Inv(s) && s.phase == RoundActive && s.players[i].connected
    requires HandleCommand(s, i, c, now).phase == GameOver
    ensures Informs(s, HandleCommand(s, i, c, now))
  {
    hide Informs, HandleChoose, HandleSpawn, Dropped, Reevaluate, Told, ToldAll, NameTaken, LobbyStatusLines, EnqueuedAll, SnapshotLines, Cleared, Sound;
    match c {
      case Choose(arg) => ChooseInforms(s, i, arg, now);
      case Spawn(at) => SpawnInforms(s, i, at, now);
      case GetState => GivenUpInforms(s, i, now);
      case Quit => LostInforms(s, i, now);
      case _ =>
    }
  }

  lemma FlushingInforms(s: Server, i: Slot, sends: seq<SendResult>, now: nat)
    requires Inv(s) && s.players[i].connected && s.phase == RoundActive && Flushing(s, i, sends, now).phase == GameOver
    ensures var p := s.players[i];
            Informs(WithPlayer(s, i, p.(outbuf := p.outbuf[FlushCount(|p.outbuf|, sends).0..])), Flushing(s, i, sends, now))
  {
    var p := s.players[i];
    var q := p.(outbuf := p.outbuf[FlushCount(|p.outbuf|, sends).0..]);
    assert PlayerOk(p, s.nextId);
    assert PlayerOk(q, s.nextId);
    PlayerChangeAdvances(s, i, q);
    hide Lost, Informs;
    LostInforms(WithPlayer(s, i, q), i, now);
  }

  /** What an event sent to slot `k`. */
  function NewsOf(s: Server, e: Event, r: Server, k: Slot): seq<string> {
    Gained(s.players[k].outbuf[SentBy(s, e, k)..], r.players[k].outbuf)
  }

  /** The event that ends a match, and one slot that stays through it. */
  lemma EndInforms(w: World, e: Event, root: real -> real, k: Slot)
    requires Inv(w.server) && Ends(w.server, Step(w, e, root).server) && Step(w, e, root).server.players[k].connected
    ensures var s, r := w.server, Step(w, e, root).server;
            s.players[k].connected && TellsResult(NewsOf(s, e, r, k), r.players[k], true)
  {
    var s, r := w.server, Step(w, e, root).server;
    assert s.players[k].outbuf[0..] == s.players[k].outbuf;
    OnlyTimersLeaveTheLobby(w, e, root);
    hide HandleCommand, AdvanceTimers, Accepted, Lost, Flushing, Sound, TimerSound, Informs, Gained, TellsResult;
    match e {
      case Accept => assert false by { AcceptedPhase(s); }
      case ReadFailure(i, now) =>
        LostInforms(s, i, now);
        InformedSlot(s, r, k);
      case Line(i, c, now) =>
        CommandInforms(s, i, c, now);
        InformedSlot(s, r, k);
      case Write(i, sends, now) =>
        var p := s.players[i];
        var s1 := WithPlayer(s, i, p.(outbuf := p.outbuf[FlushCount(|p.outbuf|, sends).0..]));
        FlushingInforms(s, i, sends, now);
        InformedSlot(s1, r, k);
        assert s1.players[k].outbuf == s.players[k].outbuf[SentBy(s, e, k)..];
      case Timer(now, clock) =>
        TimersInform(w, now, clock, root);
        InformedSlot(s, r, k);
    }
  }

  lemma InformedSlot(s: Server, r: Server, k: Slot)
    requires Informs(s, r) && Ends(s, r) && r.players[k].connected
    ensures s.players[k].connected && TellsResult(Gained(s.players[k].outbuf, r.players[k].outbuf), r.players[k], true)
  {
    assert Honest(s.players[k], r.players[k], Ends(s, r));
  }

  lemma AcceptedPhase(s: Server)
    ensures Accepted(s).phase == s.phase
  {
  }

  lemma OnlyTimersLeaveTheLobby(w: World, e: Event, root: real -> real)
    requires Inv(w.server) && Ends(w.server, Step(w, e, root).server)
    ensures w.server.phase == RoundActive || e.Timer?
  {
    hide Step, Inv, Sound;
    PhaseGraph(w, e, root);
    InvPhases(w.server);
  }

  lemma InvPhases(s: Server)
    requires Inv(s)
    ensures s.phase == LobbyOpen || s.phase == RoundActive || s.phase == GameOver
  {
  }

  /** Whichever event ends a match, every registered player that stays through it is told in it that it
      has won exactly if it was admitted and is alive or waiting, that it has lost exactly if it was
      admitted and is neither, and otherwise only that the match is over. No other result is told, and
      none to a client that has not said who it is. */
  lemma EndOfMatchIsTold(w: World, e: Event, root: real -> real, k: Slot)
    requires Inv(w.server) && w.server.phase != GameOver && Step(w, e, root).server.phase == GameOver
    requires Step(w, e, root).server.players[k].connected
    ensures var s, r := w.server, Step(w, e, root).server;
            var p, news := r.players[k], NewsOf(s, e, r, k);
            && s.players[k].connected
            && ("GAME_OVER WIN" in news <==> p.registered && p.admitted && (p.alive || p.waiting))
            && ("GAME_OVER LOSE" in news <==> p.registered && p.admitted && !p.alive && !p.waiting)
            && ("GAME_OVER" in news <==> p.registered && !p.admitted)
            && forall l :: l in news && "GAME_OVER" <= l ==> l == "GAME_OVER WIN" || l == "GAME_OVER LOSE" || l == "GAME_OVER"
  {
    EndInforms(w, e, root, k);
    var s, r := w.server, Step(w, e, root).server;
    hide Step, Inv, NewsOf;
    ToldLiterally(NewsOf(s, e, r, k), r.players[k]);
  }

  lemma ToldLiterally(news: seq<string>, p: Player)
    requires TellsResult(news, p, true)
    ensures "GAME_OVER WIN" in news <==> p.registered && p.admitted && (p.alive || p.waiting)
    ensures "GAME_OVER LOSE" in news <==> p.registered && p.admitted && !p.alive && !p.waiting
    ensures "GAME_OVER" in news <==> p.registered && !p.admitted
    ensures forall l :: l in news && "GAME_OVER" <= l ==> l == "GAME_OVER WIN" || l == "GAME_OVER LOSE" || l == "GAME_OVER"
  {
    assert IsResult("GAME_OVER WIN") && IsResult("GAME_OVER LOSE") && IsResult("GAME_OVER");
    assert |"GAME_OVER WIN"| == 13 && |"GAME_OVER LOSE"| == 14 && |"GAME_OVER"| == 9;
    assert forall l :: "GAME_OVER" <= l ==> IsResult(l);
  }

  /** A snapshot in the end phase says the same to its receiver, and one in any other phase nothing of
      the kind. */
  lemma SnapshotTellsResult(s: Server, p: Player, now: nat)
    requires p.connected && (p.admitted ==> p.registered)
    ensures var lines := SnapshotLines(s, p, now);
            && ("GAME_OVER WIN" in lines <==> s.phase == GameOver && p.registered && p.admitted && (p.alive || p.waiting))
            && ("GAME_OVER LOSE" in lines <==> s.phase == GameOver && p.registered && p.admitted && !p.alive && !p.waiting)
            && ("GAME_OVER" in lines <==> s.phase == GameOver && p.registered && !p.admitted)
  {
    SnapshotTells(s, p, now);
    hide SnapshotLines;
    if s.phase == GameOver {
      ToldLiterally(SnapshotLines(s, p, now), p);
    } else {
      assert IsResult("GAME_OVER WIN") && IsResult("GAME_OVER LOSE") && IsResult("GAME_OVER");
    }
  }
}
