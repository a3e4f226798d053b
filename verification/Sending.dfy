/** Every line that the server queues is one that the framing carries unaltered. Whatever an event
    does, a connection that survives it finds behind its pending bytes a number of whole framed
    lines. */
module Sending {
  import opened Common
  import opened Text
  import opened Protocol
  import opened Game
  import opened Chase
  import opened ChaseGeometry
  import opened ServerState
  import opened ServerCommands
  import opened ServerInvariant
  import opened ServerRuns
  import opened RunInvariant
  import opened MatchRuns
  import opened SnapshotText

  // ---------------------------------------------------------------- bytes behind bytes

  /** Some whole lines were queued behind `a`. */
  ghost predicate Extends(a: string, b: string) {
    exists lines :: AllLines(lines) && b == a + Framed(lines)
  }

  lemma ExtendsNothing(a: string)
    ensures Extends(a, a)
  {
    var lines: seq<string> := [];
    assert AllLines(lines) && a == a + Framed(lines);
  }

  lemma ExtendsLine(pending: string, line: string)
    requires Plain(line) && Enqueued(pending, line).Some?
    ensures Extends(pending, Enqueued(pending, line).value)
  {
    FramedOne(line);
    assert AllLines([line]) && Enqueued(pending, line).value == pending + Framed([line]);
  }

  lemma ExtendsTransitive(a: string, b: string, c: string)
    requires Extends(a, b) && Extends(b, c)
    ensures Extends(a, c)
  {
    var l :| AllLines(l) && b == a + Framed(l);
    var m :| AllLines(m) && c == b + Framed(m);
    FramedConcat(l, m);
    AllLinesConcat(l, m);
    ConcatAssociates(a, Framed(l), Framed(m));
    assert AllLines(l + m) && c == a + Framed(l + m);
  }

  ghost predicate AllPlain(lines: seq<string>) {
    forall k :: 0 <= k < |lines| ==> Plain(lines[k])
  }

  lemma {:induction false} ExtendsAll(pending: string, lines: seq<string>)
    requires AllPlain(lines) && EnqueuedAll(pending, lines).Some?
    ensures Extends(pending, EnqueuedAll(pending, lines).value)
    decreases |lines|
  {
    hide Extends, Enqueued;
    if lines == [] {
      ExtendsNothing(pending);
    } else {
      var next := Enqueued(pending, lines[0]).value;
      ExtendsLine(pending, lines[0]);
      ExtendsAll(next, lines[1..]);
      ExtendsTransitive(pending, next, EnqueuedAll(pending, lines).value);
    }
  }

  /** A slot that is still connected was connected, and has only been queued whole lines. */
  ghost predicate Fed(p: Player, q: Player) {
    q.connected ==> p.connected && Extends(p.outbuf, q.outbuf)
  }

  ghost predicate Feeds(ps: Table, qs: Table) {
    forall k: Slot :: Fed(ps[k], qs[k])
  }

  lemma FeedsTransitive(a: Table, b: Table, c: Table)
    requires Feeds(a, b) && Feeds(b, c)
    ensures Feeds(a, c)
  {
    hide Extends;
    forall k: Slot
      ensures Fed(a[k], c[k])
    {
      assert Fed(a[k], b[k]) && Fed(b[k], c[k]);
      if c[k].connected {
        ExtendsTransitive(a[k].outbuf, b[k].outbuf, c[k].outbuf);
      }
    }
  }

  lemma SameOutputFeeds(ps: Table, qs: Table)
    requires forall k: Slot :: qs[k].connected ==> ps[k].connected && qs[k].outbuf == ps[k].outbuf
    ensures Feeds(ps, qs)
  {
    hide Extends;
    forall k: Slot
      ensures Fed(ps[k], qs[k])
    {
      ExtendsNothing(ps[k].outbuf);
    }
  }

  lemma FeedsNothing(ps: Table)
    ensures Feeds(ps, ps)
  {
    SameOutputFeeds(ps, ps);
  }

  lemma DeliveredFed(p: Player, line: string)
    requires p.connected && Plain(line)
    ensures Fed(p, Delivered(p, line))
  {
    hide Extends;
    if Enqueued(p.outbuf, line).Some? {
      ExtendsLine(p.outbuf, line);
    }
  }

  lemma DeliveredAllFed(p: Player, lines: seq<string>)
    requires p.connected && AllPlain(lines)
    ensures Fed(p, DeliveredAll(p, lines))
  {
    hide Extends, EnqueuedAll;
    if EnqueuedAll(p.outbuf, lines).Some? {
      ExtendsAll(p.outbuf, lines);
    }
  }

  lemma ToldExtends(p: Player, line: string)
    requires Plain(line)
    ensures Extends(p.outbuf, Told(p, line).outbuf)
  {
    hide Extends;
    ExtendsNothing(p.outbuf);
    if Enqueued(p.outbuf, line).Some? {
      ExtendsLine(p.outbuf, line);
    }
  }

  lemma {:induction false} ToldAllExtends(p: Player, lines: seq<string>)
    requires AllPlain(lines)
    ensures Extends(p.outbuf, ToldAll(p, lines).outbuf)
    decreases |lines|
  {
    hide Extends, Told;
    if lines == [] {
      ExtendsNothing(p.outbuf);
    } else {
      ToldExtends(p, lines[0]);
      ToldAllExtends(Told(p, lines[0]), lines[1..]);
      ExtendsTransitive(p.outbuf, Told(p, lines[0]).outbuf, ToldAll(p, lines).outbuf);
    }
  }

  // ---------------------------------------------------------------- the texts

  lemma NumberedPlain(n: int)
    ensures Plain(LobbyOpenLine(n)) && Plain(SetupOpenLine(n)) && Plain(WelcomeLine(n))
  {
    DecimalPlain(n);
    hide Decimal;
  }

  lemma RoundStartPlain(roundNo: int, n: int)
    ensures Plain(RoundStartLine(roundNo, n))
  {
    DecimalPlain(roundNo);
    DecimalPlain(n);
    hide Decimal;
    PlainConcat(" ", Decimal(n));
    PlainConcat(Decimal(roundNo), " " + Decimal(n));
  }

  lemma NamedPlain(name: string)
    requires Plain(name)
    ensures Plain(LeftLine(name)) && Plain(JoinedLine(name))
  {
  }

  lemma ChosenPlain(c: char)
    requires IsRps(c)
    ensures Plain(ChoiceOkLine(c)) && Plain(RepickOkLine(c))
  {
  }

  lemma SpawnOkPlain(x: real, y: real)
    ensures Plain(SpawnOkLine(x, y))
  {
    Fixed1Plain(x);
    Fixed1Plain(y);
    hide Fixed1;
    PlainConcat(" ", Fixed1(y));
    PlainConcat(Fixed1(x), " " + Fixed1(y));
  }

  lemma Fixed1Plain(v: real)
    ensures Plain(Fixed1(v))
  {
    var m := Magnitude(RoundHalfEven(v * 10.0));
    DigitsPlain(m / 10);
    hide Digits;
    PlainConcat(Digits(m / 10), "." + [Digit(m % 10)]);
  }

  lemma ResultPlain(p: Player)
    ensures AllPlain(GameOverLines(p))
  {
    FixedHeaders();
  }

  lemma HeaderPlain(s: Server, dst: Player, now: nat)
    ensures AllPlain(HeaderLines(s, dst, now))
  {
    hide LobbyOpenLine, SetupOpenLine, RoundStartLine, SecondsLeft, GameOverLines, Plain;
    FixedHeaders();
    match s.phase
    case LobbyOpen => NumberedPlain(SecondsLeft(s.joinDeadline, now));
    case Setup => NumberedPlain(SecondsLeft(s.setupDeadline, now));
    case RoundActive => RoundStartPlain(s.roundNo, SecondsLeft(s.roundDeadline, now));
    case Repick =>
    case GameOver => ResultPlain(dst);
  }

  lemma {:induction false} PlayerLinesPlain(ps: seq<Player>)
    requires AllPrintable(ps)
    ensures AllPlain(PlayerLines(ps))
  {
    hide PlayerLine, Printable, Plain;
    if ps != [] {
      assert forall k :: 0 <= k < |ps| - 1 ==> ps[..|ps| - 1][k] == ps[k];
      PlayerLinesPlain(ps[..|ps| - 1]);
      if IsAdmitted(ps[|ps| - 1]) {
        PlayerLineShort(ps[|ps| - 1]);
      }
    }
  }

  lemma SnapshotPlain(s: Server, dst: Player, now: nat)
    requires Records(s)
    ensures AllPlain(SnapshotLines(s, dst, now))
  {
    hide HeaderLines, PlayerLines;
    HeaderPlain(s, dst, now);
    RecordsPrintable(s);
    PlayerLinesPlain(s.players);
    assert Plain("STATE_BEGIN") && Plain("STATE_END");
    hide Plain;
  }

  // ---------------------------------------------------------------- the recursion

  lemma DeliveringFeeds(ps: Table, line: string)
    requires Plain(line)
    ensures Feeds(ps, MapConnected(ps, p => Delivered(p, line)))
  {
    hide Fed, Delivered, Plain;
    var qs := MapConnected(ps, p => Delivered(p, line));
    forall k: Slot
      ensures Fed(ps[k], qs[k])
    {
      if ps[k].connected {
        DeliveredFed(ps[k], line);
      } else {
        UnconnectedFed(ps[k]);
      }
    }
  }

  lemma UnconnectedFed(p: Player)
    requires !p.connected
    ensures Fed(p, p)
  {
  }

  lemma EndGameFeeds(s: Server)
    ensures Feeds(s.players, EndGame(s).players)
  {
    hide Fed, DeliveredAll, GameOverLines;
    var r := EndGame(s);
    forall k: Slot
      ensures Fed(s.players[k], r.players[k])
    {
      if s.players[k].connected {
        ResultPlain(s.players[k]);
        DeliveredAllFed(s.players[k], GameOverLines(s.players[k]));
      } else {
        UnconnectedFed(s.players[k]);
      }
    }
  }

  lemma {:induction false} BroadcastFeeds(s: Server, line: string, now: nat)
    requires Sound(s) && Plain(line)
    ensures Feeds(s.players, Broadcast(s, line, now).players)
    decreases Connected(s.players), 1, 0
  {
    var s' := s.(players := MapConnected(s.players, p => Delivered(p, line)));
    DeliveringFeeds(s.players, line);
    BroadcastPrunes(s.players, line);
    PrunedKeeps(s, s');
    hide Feeds, Kept, Records, MapConnected;
    if Connected(s'.players) != Connected(s.players) {
      ReevaluateFeeds(s', now);
      FeedsTransitive(s.players, s'.players, Reevaluate(s', now).players);
    }
  }

  lemma {:induction false} PositionsFeed(s: Server, n: nat, now: nat)
    requires Sound(s) && n <= MAX_PLAYERS
    ensures Feeds(s.players, PositionsUpTo(s, n, now).players)
    decreases Connected(s.players), 2, n
  {
    hide Sound, Nested, Broadcast, Feeds, Plain, PlayerLine;
    if n == 0 {
      FeedsNothing(s.players);
    } else {
      var m := PositionsUpTo(s, n - 1, now);
      PositionsFeed(s, n - 1, now);
      PositionsSound(s, n - 1, now);
      NestedSound(s, m);
      if IsAdmitted(m.players[n - 1]) {
        PositionPlain(m, n - 1);
        BroadcastFeeds(m, PlayerLine(m.players[n - 1]), now);
        FeedsTransitive(s.players, m.players, Broadcast(m, PlayerLine(m.players[n - 1]), now).players);
      }
    }
  }

  lemma PositionPlain(s: Server, k: Slot)
    requires Sound(s) && IsAdmitted(s.players[k])
    ensures Plain(PlayerLine(s.players[k]))
  {
    RecordsPrintable(s);
    hide Plain, PlayerLine;
    PlayerLineShort(s.players[k]);
  }

  lemma {:induction false} StartActiveRoundFeeds(s: Server, now: nat)
    requires Records(s)
    ensures Feeds(s.players, StartActiveRound(s, now).players)
    decreases Connected(s.players), 4, 0
  {
    var s1 := StartRound(s, now);
    StartRoundSound(s, now);
    SameOutputFeeds(s.players, s1.players);
    var line := RoundStartLine(s1.roundNo, ROUND_SECONDS);
    RoundStartPlain(s1.roundNo, ROUND_SECONDS);
    hide Sound, Kept, Broadcast, PositionsUpTo, Feeds, Plain, StartRound, RoundStartLine, Nested;
    BroadcastSound(s1, line, now);
    var s2 := Broadcast(s1, line, now);
    NestedSound(s1, s2);
    BroadcastFeeds(s1, line, now);
    PositionsFeed(s2, MAX_PLAYERS, now);
    FeedsTransitive(s1.players, s2.players, BroadcastPositions(s2, now).players);
    FeedsTransitive(s.players, s1.players, BroadcastPositions(s2, now).players);
  }

  lemma {:induction false} ReevaluateFeeds(s: Server, now: nat)
    requires Sound(s)
    ensures Feeds(s.players, Reevaluate(s, now).players)
    decreases Connected(s.players), 6, 0
  {
    hide StartActiveRound, FinishRepicks, EndGame, CountIf, TypesAlive, Feeds;
    FeedsNothing(s.players);
    EndGameFeeds(s);
    if s.phase == Setup {
      StartActiveRoundFeeds(s, now);
    }
  }

  // ---------------------------------------------------------------- operations

  lemma {:induction false} SnapshotsFeed(s: Server, n: nat, now: nat)
    requires Records(s) && n <= MAX_PLAYERS
    ensures Feeds(s.players, SnapshotsUpTo(s, n, now).players)
  {
    hide SnapshotLines, DeliveredAll, Records, Fed, Feeds, Pruned, Kept;
    if n == 0 {
      FeedsNothing(s.players);
    } else {
      var m := SnapshotsUpTo(s, n - 1, now);
      SnapshotsFeed(s, n - 1, now);
      SnapshotsPrune(s, n - 1, now);
      PrunedKeeps(s, m);
      hide Connected;
      var p := m.players[n - 1];
      if IsRegistered(p) {
        SnapshotPlain(m, p, now);
        DeliveredAllFed(p, SnapshotLines(m, p, now));
        OneFed(m, n - 1, DeliveredAll(p, SnapshotLines(m, p, now)));
        FeedsTransitive(s.players, m.players, SnapshotsUpTo(s, n, now).players);
      }
    }
  }

  lemma OneFed(s: Server, i: Slot, p: Player)
    requires Fed(s.players[i], p)
    ensures Feeds(s.players, WithPlayer(s, i, p).players)
  {
    hide Extends;
    FeedsNothing(s.players);
    forall k: Slot
      ensures Fed(s.players[k], WithPlayer(s, i, p).players[k])
    {
      assert Fed(s.players[k], s.players[k]);
    }
  }

  lemma BroadcastGameStateFeeds(s: Server, now: nat)
    requires Sound(s)
    ensures Feeds(s.players, BroadcastGameState(s, now).players)
  {
    hide SnapshotsUpTo, Reevaluate, Feeds, Records, Kept;
    var s' := SnapshotsUpTo(s, MAX_PLAYERS, now);
    SnapshotsPrune(s, MAX_PLAYERS, now);
    PrunedKeeps(s, s');
    SoundRecords(s);
    SnapshotsFeed(s, MAX_PLAYERS, now);
    if Connected(s'.players) != Connected(s.players) {
      ReevaluateFeeds(s', now);
      FeedsTransitive(s.players, s'.players, Reevaluate(s', now).players);
    }
  }

  /** A line to everybody and then the state. */
  lemma AnnouncedFeeds(s: Server, line: string, now: nat)
    requires Sound(s) && Plain(line)
    ensures Feeds(s.players, BroadcastGameState(Broadcast(s, line, now), now).players)
  {
    hide Broadcast, BroadcastGameState, Feeds, Sound, Plain;
    BroadcastSound(s, line, now);
    var m := Broadcast(s, line, now);
    NestedSound(s, m);
    BroadcastFeeds(s, line, now);
    BroadcastGameStateFeeds(m, now);
    FeedsTransitive(s.players, m.players, BroadcastGameState(m, now).players);
  }

  lemma ClearedFeeds(s: Server, i: Slot)
    ensures Feeds(s.players, Cleared(s, i).players)
  {
    assert forall k: Slot :: k != i ==> Cleared(s, i).players[k] == s.players[k];
    hide Feeds;
    SameOutputFeeds(s.players, Cleared(s, i).players);
  }

  lemma PlainName(s: Server, i: Slot)
    requires Records(s) && s.players[i].connected
    ensures Plain(s.players[i].name)
  {
    assert PlayerOk(s.players[i], s.nextId);
  }

  lemma LostFeeds(s: Server, i: Slot, now: nat)
    requires Sound(s)
    ensures Feeds(s.players, Lost(s, i, now).players)
  {
    ClearedFeeds(s, i);
    ClearedSound(s, i);
    DroppedSound(s, i, true, now);
    var s1, s2 := Cleared(s, i), Dropped(s, i, true, now);
    var p := s.players[i];
    if p.connected {
      PlainName(s, i);
      NamedPlain(p.name);
    }
    hide Cleared, Broadcast, BroadcastGameState, Reevaluate, Feeds, Records, Plain;
    FeedsNothing(s.players);
    if p.connected && p.registered {
      AnnouncedFeeds(s1, LeftLine(p.name), now);
      FeedsTransitive(s.players, s1.players, s2.players);
    }
    assert Feeds(s.players, s2.players);
    ReevaluateFeeds(s2, now);
    FeedsTransitive(s.players, s2.players, Reevaluate(s2, now).players);
  }

  lemma GivenUpFeeds(s: Server, i: Slot, now: nat)
    requires Sound(s)
    ensures Feeds(s.players, Reevaluate(Cleared(s, i), now).players)
  {
    ClearedFeeds(s, i);
    ClearedSound(s, i);
    ClearedHeader(s, i);
    hide Cleared, Reevaluate, Feeds, Records;
    ReevaluateFeeds(Cleared(s, i), now);
    FeedsTransitive(s.players, Cleared(s, i).players, Reevaluate(Cleared(s, i), now).players);
  }

  lemma RefusedFeeds(s: Server, i: Slot, now: nat)
    requires Sound(s) && s.players[i].connected
    ensures Feeds(s.players, Refused(s, i, now).players)
  {
    GivenUpFeeds(s, i, now);
    var p := s.players[i];
    var line := "ERROR lobby_closed";
    assert Plain(line);
    hide Cleared, Reevaluate, Feeds, Sound, Extends, Plain;
    if Enqueued(p.outbuf, line).Some? {
      ExtendsLine(p.outbuf, line);
      OneFed(s, i, p.(outbuf := Enqueued(p.outbuf, line).value));
    }
  }

  lemma AdmittedFeeds(s: Server, i: Slot, now: nat)
    requires Sound(s) && s.phase == LobbyOpen && Admissible(s.players[i])
    ensures Feeds(s.players, Admitted(s, i, now).players)
  {
    var p := s.players[i];
    if p.connected {
      PlainName(s, i);
    }
    NamedPlain(p.name);
    assert Plain("JOINED_MATCH");
    hide Broadcast, BroadcastGameState, Reevaluate, Cleared, Feeds, Sound, Extends, Plain, JoinedLine;
    match Enqueued(p.outbuf, "JOINED_MATCH")
    case None =>
      var m := WithPlayer(s, i, p.(admitted := true, waiting := true));
      MarkedFeeds(s, i, p.outbuf);
      MarkedSound(s, i, p.outbuf);
      assert m == Marked(s, i, p.outbuf);
      GivenUpFeeds(m, i, now);
      FeedsTransitive(s.players, m.players, Reevaluate(Cleared(m, i), now).players);
    case Some(outbuf) =>
      ExtendsLine(p.outbuf, "JOINED_MATCH");
      var m := Marked(s, i, outbuf);
      MarkedFeeds(s, i, outbuf);
      MarkedSound(s, i, outbuf);
      assert m == WithPlayer(s, i, p.(admitted := true, waiting := true, outbuf := outbuf));
      AnnouncedFeeds(m, JoinedLine(p.name), now);
      FeedsTransitive(s.players, m.players, BroadcastGameState(Broadcast(m, JoinedLine(p.name), now), now).players);
  }

  lemma MarkedFeeds(s: Server, i: Slot, outbuf: string)
    requires Extends(s.players[i].outbuf, outbuf) || outbuf == s.players[i].outbuf
    ensures Feeds(s.players, Marked(s, i, outbuf).players)
  {
    hide Extends;
    ExtendsNothing(s.players[i].outbuf);
    OneFed(s, i, s.players[i].(admitted := true, waiting := true, outbuf := outbuf));
  }

  lemma MaybeAdmitFeeds(s: Server, i: Slot, now: nat)
    requires Inv(s) && s.players[i].connected
    ensures Feeds(s.players, MaybeAdmit(s, i, now).players)
  {
    RefusedFeeds(s, i, now);
    FeedsNothing(s.players);
    hide Refused, Admitted, Broadcast, Feeds, Records, HasAdmitted, Plain, Kept;
    if IsCandidate(s.players[i]) && s.phase == LobbyOpen {
      AdmittedFeeds(s, i, now);
      if s.joinDeadline == 0 {
        var s0 := s.(joinDeadline := now + JOIN_WINDOW_SECONDS);
        NumberedPlain(JOIN_WINDOW_SECONDS);
        OpenedSound(s, i, now);
        SetTimerSound(s, s0);
        BroadcastFeeds(s0, OPENING, now);
        AdmittedFeeds(Opened(s, now), i, now);
        FeedsTransitive(s.players, Opened(s, now).players, Admitted(Opened(s, now), i, now).players);
      }
    }
  }

  // ---------------------------------------------------------------- commands

  lemma TellFeeds(s: Server, i: Slot, line: string)
    requires s.players[i].connected && Plain(line)
    ensures Feeds(s.players, Tell(s, i, line).players)
  {
    hide Told, Extends, Plain;
    ToldExtends(s.players[i], line);
    ToldOk(s.players[i], line);
    OneFed(s, i, Told(s.players[i], line));
  }

  /** The replies that are fixed texts. */
  lemma RepliesPlain()
    ensures Plain("ERROR bad_command") && Plain("ERROR already_registered") && Plain("ERROR usage_HELLO_name")
    ensures Plain("ERROR duplicate_name") && Plain("ERROR register_first") && Plain("ERROR already_joined")
    ensures Plain("ERROR bad_choice") && Plain("ERROR usage_SPAWN_x_y") && Plain("ERROR bad_spawn")
    ensures Plain("ERROR spawn_taken") && Plain("ERROR not_in_repick_phase") && Plain("ERROR rematch_not_available")
  {
    RegistrationRepliesPlain();
    PlayRepliesPlain();
    hide Plain;
  }

  lemma RegistrationRepliesPlain()
    ensures Plain("ERROR bad_command") && Plain("ERROR already_registered") && Plain("ERROR usage_HELLO_name")
    ensures Plain("ERROR duplicate_name") && Plain("ERROR register_first") && Plain("ERROR already_joined")
  {
  }

  lemma PlayRepliesPlain()
    ensures Plain("ERROR bad_choice") && Plain("ERROR usage_SPAWN_x_y") && Plain("ERROR bad_spawn")
    ensures Plain("ERROR spawn_taken") && Plain("ERROR not_in_repick_phase") && Plain("ERROR rematch_not_available")
  {
  }

  lemma StatusPlain(s: Server, id: int, now: nat)
    ensures AllPlain([WelcomeLine(id), "SPECTATING"] + LobbyStatusLines(s, now))
  {
    NumberedPlain(id);
    NumberedPlain(SecondsLeft(s.joinDeadline, now));
    FixedStatus();
    hide WelcomeLine, LobbyOpenLine, SecondsLeft, Plain;
  }

  lemma FixedStatus()
    ensures Plain("SPECTATING") && Plain("CHOOSE_TYPE") && Plain("CHOOSE_SPAWN 10 10")
    ensures Plain("LOBBY_WAITING") && Plain("LOBBY_CLOSED") && Plain("MATCH_RESET")
    ensures Plain("INFO connected_send_HELLO_name") && Plain("WAITING_FOR_OTHERS")
  {
  }

  lemma HelloFeeds(s: Server, i: Slot, name: Option<Name>, now: nat)
    requires s.players[i].connected
    ensures Feeds(s.players, HandleHello(s, i, name, now).players)
  {
    RepliesPlain();
    hide ToldAll, Tell, LobbyStatusLines, NameTaken, Extends, Plain, Feeds, WelcomeLine;
    TellFeeds(s, i, "ERROR already_registered");
    TellFeeds(s, i, "ERROR usage_HELLO_name");
    TellFeeds(s, i, "ERROR duplicate_name");
    if name.Some? {
      var p := s.players[i];
      var q := FreshProgress(p.(name := name.value, registered := true));
      var lines := [WelcomeLine(p.id), "SPECTATING"] + LobbyStatusLines(s, now);
      StatusPlain(s, p.id, now);
      ToldAllExtends(q, lines);
      OneFed(s, i, ToldAll(q, lines));
    }
  }

  /** CHOICE and SPAWN confirm what they have recorded, and try to admit. */
  lemma RecordedFeeds(s: Server, i: Slot, q: Player, line: string, now: nat)
    requires Inv(s) && s.players[i].connected && PlayerOk(q, s.nextId) && Plain(line)
    requires var p := s.players[i];
             && p.registered && !p.admitted
             && q == p.(choice := q.choice, choiceChosen := q.choiceChosen, x := q.x, y := q.y, spawnChosen := q.spawnChosen)
    ensures Feeds(s.players, MaybeAdmit(WithPlayer(s, i, Told(q, line)), i, now).players)
  {
    ToldOk(q, line);
    ToldExtends(q, line);
    var q' := Told(q, line);
    assert PlayerOk(q', s.nextId);
    PlayerChangeAdvances(s, i, q');
    hide MaybeAdmit, Told, Extends, Feeds, Plain;
    var s1 := WithPlayer(s, i, q');
    OneFed(s, i, q');
    MaybeAdmitFeeds(s1, i, now);
    FeedsTransitive(s.players, s1.players, MaybeAdmit(s1, i, now).players);
  }

  lemma ChooseFeeds(s: Server, i: Slot, arg: Option<string>, now: nat)
    requires Inv(s) && s.players[i].connected
    ensures Feeds(s.players, HandleChoose(s, i, arg, now).players)
  {
    RepliesPlain();
    hide Tell, MaybeAdmit, Told, Feeds, Plain, ChoiceOkLine;
    TellFeeds(s, i, "ERROR register_first");
    TellFeeds(s, i, "ERROR already_joined");
    TellFeeds(s, i, "ERROR bad_choice");
    var p := s.players[i];
    if p.registered && !p.admitted && ParseChoice(arg).Some? {
      var c := ParseChoice(arg).value;
      ChosenPlain(c);
      assert PlayerOk(p, s.nextId);
      assert PlayerOk(p.(choice := c, choiceChosen := true), s.nextId);
      RecordedFeeds(s, i, p.(choice := c, choiceChosen := true), ChoiceOkLine(c), now);
    }
  }

  lemma SpawnFeeds(s: Server, i: Slot, at: Option<(real, real)>, now: nat)
    requires Inv(s) && s.players[i].connected
    ensures Feeds(s.players, HandleSpawn(s, i, at, now).players)
  {
    RepliesPlain();
    hide Tell, MaybeAdmit, Told, Feeds, Plain, SpawnOkLine, SpawnTaken;
    TellFeeds(s, i, "ERROR register_first");
    TellFeeds(s, i, "ERROR already_joined");
    TellFeeds(s, i, "ERROR usage_SPAWN_x_y");
    TellFeeds(s, i, "ERROR bad_spawn");
    TellFeeds(s, i, "ERROR spawn_taken");
    var p := s.players[i];
    if p.registered && !p.admitted && at.Some? && InBox(at.value.0, at.value.1) {
      var (x, y) := at.value;
      SpawnOkPlain(x, y);
      assert PlayerOk(p, s.nextId);
      assert PlayerOk(p.(x := x, y := y, spawnChosen := true), s.nextId);
      RecordedFeeds(s, i, p.(x := x, y := y, spawnChosen := true), SpawnOkLine(x, y), now);
    }
  }

  lemma GetStateFeeds(s: Server, i: Slot, now: nat)
    requires Inv(s) && s.players[i].connected
    ensures Feeds(s.players, HandleGetState(s, i, now).players)
  {
    GivenUpFeeds(s, i, now);
    var p := s.players[i];
    SoundRecords(s);
    SnapshotPlain(s, p, now);
    hide Cleared, Reevaluate, EnqueuedAll, SnapshotLines, Extends, Feeds, AllPlain, Inv;
    var lines := SnapshotLines(s, p, now);
    if EnqueuedAll(p.outbuf, lines).Some? {
      ExtendsAll(p.outbuf, lines);
      OneFed(s, i, p.(outbuf := EnqueuedAll(p.outbuf, lines).value));
    }
  }

  lemma ResetFeeds(s: Server)
    ensures Feeds(s.players, ResetMatch(s).players)
  {
    var r := ResetMatch(s);
    FixedStatus();
    hide EnqueuedAll, Extends, Plain;
    forall k: Slot
      ensures Fed(s.players[k], r.players[k])
    {
      ExtendsNothing(s.players[k].outbuf);
      if s.players[k].connected && s.players[k].registered {
        assert r.players[k] == ResetPlayer(s.players[k]);
        DeliveredAllFed(FreshProgress(s.players[k]), RESET_LINES);
      } else if s.players[k].connected {
        assert r.players[k] == ResetPlayer(s.players[k]);
      }
    }
  }

  lemma CommandFeeds(s: Server, i: Slot, c: Command, now: nat)
    requires Inv(s) && s.players[i].connected
    ensures Feeds(s.players, HandleCommand(s, i, c, now).players)
  {
    RepliesPlain();
    hide Feeds, Plain, HandleHello, HandleChoose, HandleSpawn, HandleGetState, Tell, Dropped, Reevaluate, FinishRepicks, ResetMatch;
    match c
    case Unknown => TellFeeds(s, i, "ERROR bad_command");
    case Hello(name) => HelloFeeds(s, i, name, now);
    case Choose(arg) => ChooseFeeds(s, i, arg, now);
    case Spawn(at) => SpawnFeeds(s, i, at, now);
    case PickAgain(arg) => TellFeeds(s, i, "ERROR not_in_repick_phase");
    case GetState => GetStateFeeds(s, i, now);
    case Rematch =>
      TellFeeds(s, i, "ERROR rematch_not_available");
      ResetFeeds(s);
    case Quit => LostFeeds(s, i, now);
  }

  // ---------------------------------------------------------------- events

  lemma CloseLobbyFeeds(s: Server, now: nat)
    requires Inv(s)
    ensures Feeds(s.players, CloseLobby(s, now).players)
  {
    FeedsNothing(s.players);
    if LobbyIsOver(s, now) {
      var s0 := s.(phase := Setup, setupDeadline := now + SETUP_SECONDS);
      var line := SetupOpenLine(SETUP_SECONDS);
      FixedStatus();
      NumberedPlain(SETUP_SECONDS);
      SetupSound(s, s0);
      hide Broadcast, StartActiveRound, EndGame, Feeds, Records, Plain, CountIf, AllAdmittedReady, Kept;
      BroadcastSound(s0, "LOBBY_CLOSED", now);
      var s1 := Broadcast(s0, "LOBBY_CLOSED", now);
      BroadcastSound(s1, line, now);
      var s2 := Broadcast(s1, line, now);
      BroadcastFeeds(s0, "LOBBY_CLOSED", now);
      BroadcastFeeds(s1, line, now);
      FeedsTransitive(s.players, s1.players, s2.players);
      EndGameFeeds(s2);
      SoundRecords(s2);
      StartActiveRoundFeeds(s2, now);
      BroadcastFeeds(s2, "WAITING_FOR_OTHERS", now);
      FeedsTransitive(s.players, s2.players, CloseLobby(s, now).players);
    }
  }

  lemma TickFeeds(ps: Table, root: real -> real)
    ensures Feeds(ps, Tick(ps, CHASE_TICK_SECONDS, root))
  {
    TickShape(ps, CHASE_TICK_SECONDS, root);
    hide Tick, Feeds;
    var qs: Table := Tick(ps, CHASE_TICK_SECONDS, root);
    forall k: Slot
      ensures qs[k].connected == ps[k].connected && qs[k].outbuf == ps[k].outbuf
    {
      assert Chased(ps[k], qs[k]);
    }
    SameOutputFeeds(ps, qs);
  }

  lemma ChasingFeeds(s: Server, now: nat, root: real -> real)
    requires Inv(s) && s.phase == RoundActive
    ensures Feeds(s.players, Chasing(s, now, root).players)
  {
    TickSound(s, root);
    TickFeeds(s.players, root);
    hide Tick, Reevaluate, PositionsUpTo, Kept, Records, Feeds, TypesAlive;
    var s0 := s.(players := Tick(s.players, CHASE_TICK_SECONDS, root));
    PositionsSound(s0, MAX_PLAYERS, now);
    var s1 := BroadcastPositions(s0, now);
    NestedSound(s0, s1);
    PositionsFeed(s0, MAX_PLAYERS, now);
    ReevaluateFeeds(s1, now);
    FeedsTransitive(s.players, s0.players, s1.players);
    FeedsTransitive(s.players, s1.players, Reevaluate(s1, now).players);
  }

  lemma TimersFeed(w: World, now: nat, clock: real, root: real -> real)
    requires Inv(w.server)
    ensures Feeds(w.server.players, AdvanceTimers(w, now, clock, root).server.players)
  {
    hide Progresses, CloseLobby, Chasing, Kept, Feeds, Sound;
    var s := w.server;
    ExpiryIsIdle(s, now);
    CloseLobbySettles(s, now);
    CloseLobbyFeeds(s, now);
    var s1 := CloseLobby(s, now);
    ProgressesInv(s, s1);
    if TickDue(w, now, clock) {
      ChasingFeeds(s1, now, root);
      FeedsTransitive(s.players, s1.players, Chasing(s1, now, root).players);
    }
  }

  /** The bytes of a slot's output that an event takes off its front. */
  function SentBy(s: Server, e: Event, k: Slot): (n: nat)
    ensures n <= |s.players[k].outbuf|
  {
    if e.Write? && e.slot == k then FlushCount(|s.players[k].outbuf|, e.sends).0 else 0
  }

  /** Across one event of any kind, a connection that survives it keeps its pending bytes, apart from
      those that were sent, and finds whole lines behind them; a new one has only been sent whole
      lines. All of them are lines that the framing carries. */
  lemma StepSendsLines(w: World, e: Event, root: real -> real, k: Slot)
    requires Inv(w.server) && Step(w, e, root).server.players[k].connected
    ensures var s, r := w.server, Step(w, e, root).server;
            if s.players[k].connected then
              Extends(s.players[k].outbuf[SentBy(s, e, k)..], r.players[k].outbuf)
            else
              e.Accept? && Extends("", r.players[k].outbuf)
  {
    var s, r := w.server, Step(w, e, root).server;
    assert s.players[k].outbuf[0..] == s.players[k].outbuf;
    hide HandleCommand, AdvanceTimers, Accepted, Lost, Extends, Sound, TimerSound;
    FeedsNothing(s.players);
    FedSlot(s.players, s.players, k);
    match e
    case Accept => AcceptFeeds(s, k);
    case ReadFailure(i, now) =>
      LostFeeds(s, i, now);
      FedSlot(s.players, Lost(s, i, now).players, k);
    case Line(i, c, now) =>
      if s.players[i].connected {
        CommandFeeds(s, i, c, now);
        FedSlot(s.players, HandleCommand(s, i, c, now).players, k);
      }
    case Write(i, sends, now) =>
      if s.players[i].connected {
        FlushFeeds(s, i, sends, now, k);
      }
    case Timer(now, clock) =>
      TimersFeed(w, now, clock, root);
      FedSlot(s.players, AdvanceTimers(w, now, clock, root).server.players, k);
  }

  lemma FedSlot(ps: Table, qs: Table, k: Slot)
    requires Feeds(ps, qs)
    ensures qs[k].connected ==> ps[k].connected && Extends(ps[k].outbuf, qs[k].outbuf)
  {
    assert Fed(ps[k], qs[k]);
  }

  lemma AcceptFeeds(s: Server, k: Slot)
    requires Inv(s) && Accepted(s).players[k].connected
    ensures Extends(if s.players[k].connected then s.players[k].outbuf else "", Accepted(s).players[k].outbuf)
  {
    var i := FreeSlot(s.players);
    FixedStatus();
    hide FreeSlot, Told, Extends, Plain;
    if i == k {
      ToldExtends(NewPlayer(s.nextId), "INFO connected_send_HELLO_name");
    } else {
      ExtendsNothing(s.players[k].outbuf);
    }
  }

  lemma FlushFeeds(s: Server, i: Slot, sends: seq<SendResult>, now: nat, k: Slot)
    requires Inv(s) && s.players[i].connected && Flushing(s, i, sends, now).players[k].connected
    ensures s.players[k].connected
    ensures Extends(s.players[k].outbuf[SentBy(s, Write(i, sends, now), k)..], Flushing(s, i, sends, now).players[k].outbuf)
  {
    var p := s.players[i];
    var (sent, outcome) := FlushCount(|p.outbuf|, sends);
    var q := p.(outbuf := p.outbuf[sent..]);
    var s1 := WithPlayer(s, i, q);
    assert PlayerOk(p, s.nextId);
    assert PlayerOk(q, s.nextId);
    PlayerChangeAdvances(s, i, q);
    hide Lost, Extends;
    ExtendsNothing(s1.players[k].outbuf);
    assert s.players[k].outbuf[0..] == s.players[k].outbuf;
    assert s1.players[k].outbuf == s.players[k].outbuf[SentBy(s, Write(i, sends, now), k)..];
    if outcome == Broken {
      LostFeeds(s1, i, now);
      FedSlot(s1.players, Lost(s1, i, now).players, k);
    }
  }

  /** Losing a connection does lose it. */
  lemma LostGone(s: Server, i: Slot, now: nat)
    requires Sound(s) && s.players[i].connected
    ensures !Lost(s, i, now).players[i].connected
  {
    ClearedSound(s, i);
    PlainName(s, i);
    NamedPlain(s.players[i].name);
    var s1, s2 := Cleared(s, i), Dropped(s, i, true, now);
    assert !s1.players[i].connected;
    DroppedSound(s, i, true, now);
    hide Cleared, Broadcast, BroadcastGameState, Reevaluate, Feeds, Records, Plain, Extends;
    if s.players[i].registered {
      AnnouncedFeeds(s1, LeftLine(s.players[i].name), now);
      FedSlot(s1.players, s2.players, i);
    }
    ReevaluateFeeds(s2, now);
    FedSlot(s2.players, Reevaluate(s2, now).players, i);
  }
}
