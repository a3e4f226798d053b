/** What the others are told when somebody joins, leaves or asks for a rematch, and what a departure
    does. */
module Announcements {
  import opened Common
  import opened Protocol
  import opened Game
  import opened Chase
  import opened ServerState
  import opened ServerCommands
  import opened ServerInvariant
  import opened ServerRuns
  import opened RunInvariant
  import opened MatchRuns
  import opened SnapshotText
  import opened Sending
  import opened News
  import opened Mail
  import opened Joining
  import EndgameRuns
  import EliminationRounds
  import Admissions
  import Replies

  // ---------------------------------------------------------------- leaving

  /** QUIT does exactly what a lost connection does. */
  lemma QuitIsALoss(w: World, i: Slot, now: nat, root: real -> real)
    ensures Step(w, Line(i, Quit, now), root) == Step(w, ReadFailure(i, now), root)
  {
    hide Dropped, Reevaluate;
  }

  /** Nor does a flush that breaks the connection do anything else, apart from the bytes that it has
      sent before; one that does not break it only sends. */
  lemma BrokenFlushIsALoss(w: World, i: Slot, sends: seq<SendResult>, now: nat, root: real -> real)
    requires w.server.players[i].connected
    ensures var p := w.server.players[i];
            var (sent, outcome) := FlushCount(|p.outbuf|, sends);
            var w1 := w.(server := w.server.(players := w.server.players[i := p.(outbuf := p.outbuf[sent..])]));
            Step(w, Write(i, sends, now), root) == if outcome == Broken then Step(w1, ReadFailure(i, now), root) else w1
  {
    hide Dropped, Reevaluate, FlushCount;
  }

  /** The slots other than `i` that are alive. */
  lemma RemainingTypes(s: Server, r: Server, i: Slot)
    requires Kept(s, r) && NobodyWaits(s.players) && NobodyWaits(r.players) && !r.players[i].connected
    ensures TypesAlive(r.players) <= TypesAlive(s.players[i := EMPTY_SLOT])
  {
    var t := s.players[i := EMPTY_SLOT];
    forall c | HasType(r.players, c)
      ensures HasType(t, c)
    {
      var k: Slot :| IsAlive(r.players[k]) && r.players[k].choice == c;
      assert Survives(s.players[k], r.players[k]);
      assert IsAlive(t[k]) && t[k].choice == c;
    }
  }

  /** Whoever quits is gone; and if fewer than two types are left in a round, that ends the match
      within the event. */
  lemma QuitLeaves(s: Server, i: Slot, now: nat)
    requires Inv(s) && s.players[i].connected
    ensures var r := HandleCommand(s, i, Quit, now);
            && !r.players[i].connected && Inv(r)
            && (s.phase == RoundActive && TypesAlive(s.players[i := EMPTY_SLOT]) < 2 ==> r.phase == GameOver)
  {
    var r := Lost(s, i, now);
    assert HandleCommand(s, i, Quit, now) == r;
    LostGone(s, i, now);
    LostAdvances(s, i, now);
    EndgameRuns.LostStands(s, i, now);
    assert i in Connected(s.players) && i !in Connected(r.players);
    hide Lost, HandleCommand, Kept, TypesAlive, Records;
    if s.phase == RoundActive && r.phase == RoundActive {
      RemainingTypes(s, r, i);
    }
  }

  /** Whoever stays is told first of all that a registered player has left. */
  lemma DepartureIsTold(s: Server, i: Slot, now: nat, k: Slot)
    requires Inv(s) && s.players[i].connected && s.players[i].registered
    requires HandleCommand(s, i, Quit, now).players[k].connected
    ensures var p, q := s.players[k], HandleCommand(s, i, Quit, now).players[k];
            k != i && p.connected && Extends(p.outbuf, q.outbuf)
            && ["LEFT " + s.players[i].name] <= Gained(p.outbuf, q.outbuf)
  {
    var line := LeftLine(s.players[i].name);
    var s1, r := Cleared(s, i), Lost(s, i, now);
    assert HandleCommand(s, i, Quit, now) == r;
    QuitLeaves(s, i, now);
    PlainName(s, i);
    NamedPlain(s.players[i].name);
    ClearedSound(s, i);
    DroppedSound(s, i, true, now);
    assert s1.players == s.players[i := EMPTY_SLOT];
    var b := Broadcast(s1, line, now);
    var s2 := BroadcastGameState(b, now);
    assert s2 == Dropped(s, i, true, now) && r == Reevaluate(s2, now);
    hide Cleared, Dropped, Lost, Broadcast, BroadcastGameState, Reevaluate, HandleCommand, Records, Kept, Plain, Extends, Gained, Feeds;
    BroadcastSound(s1, line, now);
    NestedSound(s1, b);
    BroadcastGameStateFeeds(b, now);
    ReevaluateFeeds(s2, now);
    FeedsTransitive(b.players, s2.players, r.players);
    FedSlot(b.players, r.players, k);
    BroadcastIsTold(s1, line, now, k);
    GainedTwice(s1.players[k].outbuf, b.players[k].outbuf, r.players[k].outbuf);
  }

  // ---------------------------------------------------------------- what a departure sends, exactly

  /** A snapshot to every registered slot among the first `n`. */
  function SnapshotPost(s: Server, n: nat, now: nat): Post {
    seq(MAX_PLAYERS, k requires 0 <= k < MAX_PLAYERS =>
      if k < n && IsRegistered(s.players[k]) then SnapshotLines(s, s.players[k], now) else [])
  }

  lemma SameHeader(s: Server, u: Server, p: Player, q: Player, now: nat)
    requires u == s.(players := u.players) && SamePlayer(p, q)
    ensures HeaderLines(u, q, now) == HeaderLines(s, p, now) && IsRegistered(q) == IsRegistered(p)
  {
    assert GameOverLines(q) == GameOverLines(p);
    hide GameOverLines;
  }

  /** A snapshot shows no buffers. */
  lemma PostedSnapshot(s: Server, m: Post, k: Slot, now: nat)
    ensures var u := s.(players := PostedAll(s.players, m));
            SnapshotLines(u, u.players[k], now) == SnapshotLines(s, s.players[k], now)
            && IsRegistered(u.players[k]) == IsRegistered(s.players[k])
  {
    var u := s.(players := PostedAll(s.players, m));
    PostedSlot(s.players, m, k);
    PostedLines(s.players, m);
    SameHeader(s, u, s.players[k], u.players[k], now);
    hide PostedAll, HeaderLines, PlayerLines, IsRegistered;
  }

  lemma OneSends(s: Server, i: Slot, lines: seq<string>)
    requires s.players[i].connected
    ensures Sends(s, WithPlayer(s, i, DeliveredAll(s.players[i], lines)), ToOne(i, lines))
  {
    var r, m := WithPlayer(s, i, DeliveredAll(s.players[i], lines)), ToOne(i, lines);
    forall k: Slot | k != i
      ensures r.players[k] == s.players[k] && Takes(s.players[k], m[k]) && Posted(s.players[k], m[k]) == s.players[k]
    {
      EnqueuedNothing(s.players[k].outbuf);
    }
    DeliveredAllPosts(s.players[i], lines);
    ConnectedSlots(s.players);
    ConnectedSlots(r.players);
    hide Takes, Posted, DeliveredAll;
    if AllTake(s.players, m) {
      assert r.players == PostedAll(s.players, m);
    }
  }

  lemma DeliveredAllPosts(p: Player, lines: seq<string>)
    requires p.connected
    ensures DeliveredAll(p, lines).connected <==> Takes(p, lines)
    ensures Takes(p, lines) ==> DeliveredAll(p, lines) == Posted(p, lines)
  {
    hide EnqueuedAll;
  }

  lemma {:induction false} SnapshotsSend(s: Server, n: nat, now: nat)
    requires n <= MAX_PLAYERS
    ensures Sends(s, SnapshotsUpTo(s, n, now), SnapshotPost(s, n, now))
  {
    hide Sends, SnapshotLines, DeliveredAll, IsRegistered;
    if n == 0 {
      SendsNothing(s);
      assert SnapshotPost(s, 0, now) == ToAll([]);
    } else {
      SnapshotsSend(s, n - 1, now);
      NextSnapshot(s, SnapshotsUpTo(s, n - 1, now), n - 1, now);
    }
  }

  /** What is queued for slot `i` when its snapshot is due. */
  function SnapshotOf(s: Server, i: Slot, now: nat): seq<string> {
    if IsRegistered(s.players[i]) then SnapshotLines(s, s.players[i], now) else []
  }

  function Shown(s: Server, i: Slot, now: nat): Server {
    var p := s.players[i];
    if IsRegistered(p) then WithPlayer(s, i, DeliveredAll(p, SnapshotLines(s, p, now))) else s
  }

  lemma ShownSends(s: Server, i: Slot, now: nat)
    ensures Sends(s, Shown(s, i, now), ToOne(i, SnapshotOf(s, i, now)))
    ensures Connected(Shown(s, i, now).players) <= Connected(s.players)
  {
    if IsRegistered(s.players[i]) {
      OneSends(s, i, SnapshotLines(s, s.players[i], now));
    } else {
      SendsNothing(s);
      assert ToOne(i, []) == ToAll([]);
    }
    hide SnapshotLines, DeliveredAll, ToOne, ToAll;
    OneShrinks(s, Shown(s, i, now), i);
  }

  lemma NextPost(s: Server, i: Slot, now: nat)
    ensures Then(SnapshotPost(s, i, now), ToOne(i, SnapshotOf(s, i, now))) == SnapshotPost(s, i + 1, now)
  {
    var a, b, c := SnapshotPost(s, i, now), ToOne(i, SnapshotOf(s, i, now)), SnapshotPost(s, i + 1, now);
    forall k: Slot
      ensures Then(a, b)[k] == c[k]
    {
      hide SnapshotLines;
      if k == i {
        assert a[k] == [] && [] + b[k] == b[k];
      } else {
        assert b[k] == [] && a[k] + [] == a[k];
      }
    }
  }

  lemma NextSnapshot(s: Server, m: Server, i: Slot, now: nat)
    requires Sends(s, m, SnapshotPost(s, i, now))
    ensures Sends(s, Shown(m, i, now), SnapshotPost(s, i + 1, now))
  {
    var before := SnapshotPost(s, i, now);
    PostedSnapshot(s, before, i, now);
    assert Connected(m.players) == Connected(s.players) ==> SnapshotOf(m, i, now) == SnapshotOf(s, i, now);
    ShownSends(m, i, now);
    NextPost(s, i, now);
    hide Sends, Shown, SnapshotOf, SnapshotPost, ToOne, Then, Connected, PostedAll;
    SendsThen(s, m, Shown(m, i, now), before, ToOne(i, SnapshotOf(s, i, now)));
  }

  lemma OneShrinks(m: Server, c: Server, i: Slot)
    requires c.players == m.players || (m.players[i].connected && c.players == m.players[i := c.players[i]])
    ensures Connected(c.players) <= Connected(m.players)
  {
  }

  lemma StateSends(s: Server, now: nat)
    ensures Sends(s, BroadcastGameState(s, now), SnapshotPost(s, MAX_PLAYERS, now))
  {
    SnapshotsSend(s, MAX_PLAYERS, now);
    hide SnapshotsUpTo, SnapshotPost, AllTake, PostedAll, Reevaluate;
  }

  lemma PostedSnapshots(s: Server, m: Post, now: nat)
    ensures SnapshotPost(s.(players := PostedAll(s.players, m)), MAX_PLAYERS, now) == SnapshotPost(s, MAX_PLAYERS, now)
  {
    var u := s.(players := PostedAll(s.players, m));
    forall k: Slot
      ensures SnapshotPost(u, MAX_PLAYERS, now)[k] == SnapshotPost(s, MAX_PLAYERS, now)[k]
    {
      PostedSnapshot(s, m, k, now);
      hide PostedAll, SnapshotLines, IsRegistered;
    }
  }

  /** A line to everybody in `s`, and then a snapshot to each. */
  function NewsPost(s: Server, line: string, now: nat): Post {
    Then(ToAll([line]), SnapshotPost(s, MAX_PLAYERS, now))
  }

  lemma AnnouncementSends(s: Server, line: string, now: nat)
    ensures Sends(s, BroadcastGameState(Broadcast(s, line, now), now), NewsPost(s, line, now))
  {
    var b := Broadcast(s, line, now);
    BroadcastSends(s, line, now);
    PostedSnapshots(s, ToAll([line]), now);
    StateSends(b, now);
    assert Connected(BroadcastGameState(b, now).players) <= Connected(b.players);
    hide Broadcast, BroadcastGameState, SnapshotPost, ToAll, AllTake, PostedAll, Connected, Then;
    SendsThen(s, b, BroadcastGameState(b, now), ToAll([line]), SnapshotPost(s, MAX_PLAYERS, now));
  }

  // ---------------------------------------------------------------- the whole departure

  /** Fewer than two players or types are left in a round. */
  predicate RoundOver(s: Server) {
    s.phase == RoundActive && (AliveCount(s.players) <= 1 || TypesAlive(s.players) <= 1)
  }

  /** What becomes of those who remain, before anything is sent to them. */
  function RemainingState(s: Server): Server {
    if s.phase == LobbyOpen && AdmittedCount(s.players) == 0 then s.(joinDeadline := 0)
    else if RoundOver(s) then s.(phase := GameOver)
    else s
  }

  /** All that is sent to each of them. */
  function DeparturePost(s: Server, i: Slot, now: nat): Post {
    var t := s.(players := s.players[i := EMPTY_SLOT]);
    var told := if s.players[i].registered then NewsPost(t, "LEFT " + s.players[i].name, now) else ToAll([]);
    if RoundOver(t) then Then(told, ResultLines(t.players)) else told
  }

  lemma PostedCounters(ps: Table, m: Post)
    ensures var qs := PostedAll(ps, m);
            && (AdmittedCount(qs) == 0 <==> AdmittedCount(ps) == 0)
            && AliveCount(qs) == AliveCount(ps) && TypesAlive(qs) == TypesAlive(ps)
  {
    var qs := PostedAll(ps, m);
    forall k: Slot
      ensures IsAdmitted(qs[k]) == IsAdmitted(ps[k]) && IsAlive(qs[k]) == IsAlive(ps[k]) && qs[k].choice == ps[k].choice
    {
      PostedSlot(ps, m, k);
    }
    EliminationRounds.PostedCounts(ps, m);
    CountZeroIff(ps, IsAdmitted);
    CountZeroIff(qs, IsAdmitted);
    hide PostedAll, CountIf, IsAdmitted, IsAlive;
    assert forall c :: HasType(qs, c) <==> HasType(ps, c);
  }

  /** Sending, and the re-evaluation after it. */
  lemma SettledSends(t: Server, u: Server, m: Post, now: nat)
    requires Sends(t, u, m) && (t.phase == LobbyOpen || t.phase == RoundActive || t.phase == GameOver)
    requires Connected(Reevaluate(u, now).players) <= Connected(u.players)
    ensures Sends(RemainingState(t), Reevaluate(u, now), if RoundOver(t) then Then(m, ResultLines(t.players)) else m)
  {
    var r := Reevaluate(u, now);
    PostedCounters(t.players, m);
    if RoundOver(t) {
      assert Connected(u.players) == Connected(t.players) ==> r == EndGame(u) by { hide EndGame, CountIf, TypesAlive, PostedAll, AllTake; }
      hide Reevaluate, CountIf, TypesAlive, ResultLines, EndGame, PostedAll, AllTake;
      EndGameFrom(t, u, m, r);
    } else {
      SettledQuietly(t, u, m, now);
    }
  }

  lemma SettledQuietly(t: Server, u: Server, m: Post, now: nat)
    requires Sends(t, u, m) && (t.phase == LobbyOpen || t.phase == RoundActive || t.phase == GameOver) && !RoundOver(t)
    requires Connected(Reevaluate(u, now).players) <= Connected(u.players)
    ensures Sends(RemainingState(t), Reevaluate(u, now), m)
  {
    var r := Reevaluate(u, now);
    PostedCounters(t.players, m);
    hide EndGame, CountIf, TypesAlive, PostedAll, StartActiveRound, FinishRepicks;
    var t' := RemainingState(t);
    assert t'.players == t.players;
    if AllTake(t.players, m) {
      assert u == t.(players := PostedAll(t.players, m));
      assert r == t'.(players := PostedAll(t'.players, m));
    }
    hide AllTake;
  }

  /** A departure, exactly: what is sent to whom is fixed by the state before it, nobody else is lost
      exactly when everybody takes it, and then nothing else has happened but the end of the match or
      of the lobby timer that the departure brings about. */
  lemma DepartureSends(s: Server, i: Slot, now: nat)
    requires Inv(s) && s.players[i].connected
    ensures var t := s.(players := s.players[i := EMPTY_SLOT]);
            Sends(RemainingState(t), HandleCommand(s, i, Quit, now), DeparturePost(s, i, now))
  {
    var t, name := s.(players := s.players[i := EMPTY_SLOT]), s.players[i].name;
    var u := Dropped(s, i, true, now);
    assert Cleared(s, i) == t;
    if s.players[i].registered {
      AnnouncementSends(t, "LEFT " + name, now);
      assert u == BroadcastGameState(Broadcast(t, LeftLine(name), now), now);
    } else {
      SendsNothing(t);
      assert u == t;
    }
    hide Dropped, Broadcast, BroadcastGameState, NewsPost, Sends, ToAll, Reevaluate, Sound, Cleared;
    SettledSends(t, u, if s.players[i].registered then NewsPost(t, "LEFT " + name, now) else ToAll([]), now);
    assert HandleCommand(s, i, Quit, now) == Reevaluate(u, now);
  }

  /** So nobody but the one who quits is lost if and only if everybody else's buffer takes what the
      departure sends. */
  lemma QuitLosesNobodyElse(s: Server, i: Slot, now: nat)
    requires Inv(s) && s.players[i].connected
    ensures Connected(HandleCommand(s, i, Quit, now).players) == Connected(s.players) - {i as int} <==>
            forall k: Slot :: k != i && s.players[k].connected ==> Takes(s.players[k], DeparturePost(s, i, now)[k])
  {
    var t := s.(players := s.players[i := EMPTY_SLOT]);
    DepartureSends(s, i, now);
    ConnectedSlots(s.players);
    ConnectedSlots(t.players);
    assert Connected(t.players) == Connected(s.players) - {i as int};
    hide HandleCommand, DeparturePost, Sound, Takes, PostedAll, RoundOver, CountIf, Connected;
  }

  // ---------------------------------------------------------------- joining

  lemma AdmittedIsMarked(b: Server, i: Slot, now: nat)
    requires b.phase == LobbyOpen && Admitted(b, i, now).players[i].connected
    ensures var p := b.players[i];
            && Enqueued(p.outbuf, "JOINED_MATCH").Some?
            && Admitted(b, i, now) ==
               BroadcastGameState(Broadcast(Marked(b, i, Enqueued(p.outbuf, "JOINED_MATCH").value), JoinedLine(p.name), now), now)
  {
    var p := b.players[i];
    hide Broadcast, BroadcastGameState, Enqueued, Reevaluate;
    match Enqueued(p.outbuf, "JOINED_MATCH")
    case None => Admissions.LobbyReevaluated(Cleared(WithPlayer(b, i, p.(admitted := true, waiting := true)), i), now);
    case Some(outbuf) =>
      assert Marked(b, i, outbuf) == WithPlayer(b, i, p.(admitted := true, waiting := true, outbuf := outbuf));
  }

  lemma ConfirmedCandidate(b: Server, i: Slot)
    requires Sound(b) && b.phase == LobbyOpen && IsCandidate(b.players[i]) && Enqueued(b.players[i].outbuf, "JOINED_MATCH").Some?
    ensures var m := Marked(b, i, Enqueued(b.players[i].outbuf, "JOINED_MATCH").value);
            Sound(m) && Feeds(b.players, m.players)
  {
    var outbuf := Enqueued(b.players[i].outbuf, "JOINED_MATCH").value;
    assert |outbuf| <= OUTBUF_SIZE;
    assert Plain("JOINED_MATCH");
    ExtendsLine(b.players[i].outbuf, "JOINED_MATCH");
    hide Extends, Plain, Enqueued, Sound, Feeds;
    MarkedSound(b, i, outbuf);
    MarkedFeeds(b, i, outbuf);
  }

  /** Once a candidate has been marked, everybody who stays is told its name first. */
  lemma MarkedIsTold(b: Server, i: Slot, now: nat, k: Slot)
    requires Sound(b) && b.phase == LobbyOpen && IsCandidate(b.players[i])
    requires Admitted(b, i, now).players[i].connected && Admitted(b, i, now).players[k].connected
    ensures var p, q := b.players[k], Admitted(b, i, now).players[k];
            && p.connected && Extends(p.outbuf, q.outbuf) && ("JOINED " + b.players[i].name) in Gained(p.outbuf, q.outbuf)
  {
    var p, line, r := b.players[i], JoinedLine(b.players[i].name), Admitted(b, i, now);
    PlainName(b, i);
    NamedPlain(p.name);
    AdmittedIsMarked(b, i, now);
    ConfirmedCandidate(b, i);
    var m := Marked(b, i, Enqueued(p.outbuf, "JOINED_MATCH").value);
    assert line == "JOINED " + p.name;
    hide Broadcast, BroadcastGameState, Admitted, Sound, Plain, Extends, Gained, Feeds, Enqueued, Marked, IsCandidate, JoinedLine;
    LineThenState(m, line, now, k);
    FedSlot(b.players, m.players, k);
    ToldLater(b.players[k].outbuf, m.players[k].outbuf, r.players[k].outbuf, line);
  }

  lemma ToldLater(a: string, b: string, c: string, line: string)
    requires Extends(a, b) && Extends(b, c) && [line] <= Gained(b, c)
    ensures Extends(a, c) && line in Gained(a, c)
  {
    hide Extends, Gained;
    GainedTwice(a, b, c);
    assert Gained(b, c)[0] == line;
  }

  /** A line to everybody, and then the state. */
  lemma LineThenState(s: Server, line: string, now: nat, k: Slot)
    requires Sound(s) && Plain(line) && BroadcastGameState(Broadcast(s, line, now), now).players[k].connected
    ensures var p, q := s.players[k], BroadcastGameState(Broadcast(s, line, now), now).players[k];
            p.connected && Extends(p.outbuf, q.outbuf) && [line] <= Gained(p.outbuf, q.outbuf)
  {
    var b := Broadcast(s, line, now);
    var r := BroadcastGameState(b, now);
    hide Broadcast, BroadcastGameState, Sound, Plain, Extends, Gained, Feeds, Nested;
    BroadcastSound(s, line, now);
    NestedSound(s, b);
    BroadcastGameStateFeeds(b, now);
    FedSlot(b.players, r.players, k);
    BroadcastIsTold(s, line, now, k);
    GainedTwice(s.players[k].outbuf, b.players[k].outbuf, r.players[k].outbuf);
  }

  /** When a candidate joins, everybody who stays is told its name, itself included. */
  lemma AdmissionIsTold(s: Server, i: Slot, now: nat, k: Slot)
    requires Inv(s) && s.phase == LobbyOpen && IsCandidate(s.players[i]) && (s.joinDeadline == 0 || now < s.joinDeadline)
    requires MaybeAdmit(s, i, now).players[i].connected && MaybeAdmit(s, i, now).players[k].connected
    ensures var p, q := s.players[k], MaybeAdmit(s, i, now).players[k];
            && p.connected && Extends(p.outbuf, q.outbuf) && ("JOINED " + s.players[i].name) in Gained(p.outbuf, q.outbuf)
  {
    var r := MaybeAdmit(s, i, now);
    MaybeAdmitDecides(s, i, now);
    if s.joinDeadline != 0 {
      hide Admitted, Extends, Gained;
      MarkedIsTold(s, i, now, k);
    } else {
      var s0 := s.(joinDeadline := now + JOIN_WINDOW_SECONDS);
      var b := Opened(s, now);
      OpenedSound(s, i, now);
      SetTimerSound(s, s0);
      StaysConnected(b, i, r);
      assert Survives(s.players[i], b.players[i]);
      NumberedPlain(JOIN_WINDOW_SECONDS);
      assert IsCandidate(b.players[i]) && b.players[i].name == s.players[i].name;
      assert r == Admitted(b, i, now);
      hide Admitted, Broadcast, Extends, Gained, Feeds, Sound, Kept, Joined, Plain, MaybeAdmit;
      MarkedIsTold(b, i, now, k);
      BroadcastFeeds(s0, OPENING, now);
      FedSlot(s0.players, b.players, k);
      GainedTwice(s.players[k].outbuf, b.players[k].outbuf, r.players[k].outbuf);
    }
  }

  /** The candidate in slot `i`, marked. */
  function Marking(s: Server, i: Slot): Server {
    WithPlayer(s, i, s.players[i].(admitted := true, waiting := true))
  }

  /** What the admission of the marked candidate in slot `i` of `m` sends. */
  function AdmittedPost(m: Server, i: Slot, now: nat): Post {
    Then(ToOne(i, ["JOINED_MATCH"]), NewsPost(m, "JOINED " + m.players[i].name, now))
  }

  lemma MarkingPosted(s: Server, i: Slot, m: Post)
    ensures var u := s.(players := PostedAll(s.players, m));
            Marking(u, i) == Marking(s, i).(players := PostedAll(Marking(s, i).players, m))
  {
    MarkedPosted(s.players[i], m[i]);
    hide Posted;
  }

  lemma MarkedPosted(p: Player, lines: seq<string>)
    ensures Posted(p, lines).(admitted := true, waiting := true) == Posted(p.(admitted := true, waiting := true), lines)
  {
    hide EnqueuedAll;
    var q := p.(admitted := true, waiting := true);
    assert q.outbuf == p.outbuf;
    if EnqueuedAll(p.outbuf, lines).Some? {
      var outbuf := EnqueuedAll(p.outbuf, lines).value;
      assert Posted(q, lines) == q.(outbuf := outbuf) && Posted(p, lines) == p.(outbuf := outbuf);
      hide Posted;
    } else {
      assert Posted(q, lines) == q && Posted(p, lines) == p;
      hide Posted;
    }
  }

  lemma MarkingKeeps(s: Server, i: Slot)
    ensures var r := Marking(s, i);
            && (forall k: Slot :: r.players[k].connected == s.players[k].connected && r.players[k].outbuf == s.players[k].outbuf)
            && Connected(r.players) == Connected(s.players)
  {
    SameConnected(s.players, Marking(s, i).players);
  }

  lemma ConfirmedSends(m: Server, i: Slot)
    requires m.players[i].connected
    ensures Sends(m, WithPlayer(m, i, Delivered(m.players[i], "JOINED_MATCH")), ToOne(i, ["JOINED_MATCH"]))
  {
    OneSends(m, i, ["JOINED_MATCH"]);
    EnqueuedAllOne(m.players[i].outbuf, "JOINED_MATCH");
    hide EnqueuedAll, Enqueued;
    assert DeliveredAll(m.players[i], ["JOINED_MATCH"]) == Delivered(m.players[i], "JOINED_MATCH");
    hide DeliveredAll, Delivered, Sends;
  }

  /** The admission proper. */
  lemma AdmittedSends(b: Server, i: Slot, now: nat)
    requires b.phase == LobbyOpen && b.players[i].connected
    ensures Sends(Marking(b, i), Admitted(b, i, now), AdmittedPost(Marking(b, i), i, now))
  {
    var m, line := Marking(b, i), JoinedLine(b.players[i].name);
    var x := WithPlayer(m, i, Delivered(m.players[i], "JOINED_MATCH"));
    ConfirmedSends(m, i);
    AnnouncementSends(x, line, now);
    PostedSnapshots(m, ToOne(i, ["JOINED_MATCH"]), now);
    AdmittedCases(b, i, now);
    assert line == "JOINED " + m.players[i].name;
    var r, rest := Admitted(b, i, now), NewsPost(m, line, now);
    assert Connected(x.players) == Connected(m.players) ==> NewsPost(x, line, now) == rest;
    assert Connected(BroadcastGameState(Broadcast(x, line, now), now).players) <= Connected(x.players);
    hide Admitted, Broadcast, BroadcastGameState, NewsPost, SnapshotPost, Delivered, AllTake, PostedAll, ToOne, Marking, JoinedLine, Connected, Then;
    SendsThen(m, x, r, ToOne(i, ["JOINED_MATCH"]), rest);
  }

  lemma AdmittedCases(b: Server, i: Slot, now: nat)
    requires b.phase == LobbyOpen && b.players[i].connected
    ensures var m := Marking(b, i);
            var x := WithPlayer(m, i, Delivered(m.players[i], "JOINED_MATCH"));
            if x.players[i].connected then
              Admitted(b, i, now) == BroadcastGameState(Broadcast(x, JoinedLine(b.players[i].name), now), now)
            else
              Admitted(b, i, now).players == x.players && Connected(x.players) != Connected(m.players)
  {
    var m := Marking(b, i);
    var x := WithPlayer(m, i, Delivered(m.players[i], "JOINED_MATCH"));
    hide Broadcast, BroadcastGameState, Enqueued, Reevaluate;
    match Enqueued(b.players[i].outbuf, "JOINED_MATCH")
    case None =>
      Admissions.LobbyReevaluated(Cleared(m, i), now);
      assert i in Connected(m.players) && i !in Connected(x.players);
    case Some(outbuf) => assert x == WithPlayer(b, i, b.players[i].(admitted := true, waiting := true).(outbuf := outbuf));
  }

  /** All that an admission sends to each slot, in terms of the state before it. */
  function AdmissionPost(s: Server, i: Slot, now: nat): Post {
    Then(ToAll(if s.joinDeadline == 0 then ["LOBBY_OPEN 60"] else []), AdmittedPost(Marking(Timed(s, now), i), i, now))
  }

  /** The lobby with its timer running. */
  function Timed(s: Server, now: nat): Server { if s.joinDeadline == 0 then s.(joinDeadline := now + 60) else s }

  /** An admission, exactly: nobody is lost exactly when everybody takes what it sends; and then the
      candidate is admitted and waits, the timer runs, from a minute on if it was off, and nothing else
      has changed. */
  lemma AdmissionSends(s: Server, i: Slot, now: nat)
    requires Inv(s) && s.phase == LobbyOpen && IsCandidate(s.players[i]) && (s.joinDeadline == 0 || now < s.joinDeadline)
    ensures Sends(Marking(Timed(s, now), i), MaybeAdmit(s, i, now), AdmissionPost(s, i, now))
  {
    var t := Timed(s, now);
    var b := if s.joinDeadline == 0 then Opened(s, now) else s;
    var opening := ToAll(if s.joinDeadline == 0 then ["LOBBY_OPEN 60"] else []);
    var r := MaybeAdmit(s, i, now);
    Replies.FixedAnnouncements();
    AdmissionOpens(s, i, now);
    assert r == Admitted(b, i, now);
    MarkingPosted(t, i, opening);
    MarkingKeeps(t, i);
    MarkingKeeps(b, i);
    if b.players[i].connected {
      AdmittedSends(b, i, now);
    }
    var m := Marking(t, i);
    PostedSnapshots(m, opening, now);
    PostedSlot(m.players, opening, i);
    assert i in Connected(t.players);
    assert Connected(b.players) == Connected(t.players) ==> AdmittedPost(Marking(b, i), i, now) == AdmittedPost(m, i, now);
    hide MaybeAdmit, Admitted, Opened, Marking, SnapshotPost, ToAll, AllTake, PostedAll, Then, Sound, Timed;
    SendsFrom(t, b, m, Marking(b, i), opening);
    assert i in Connected(b.players) ==> b.players[i].connected;
    hide Connected;
    SendsThen(m, Marking(b, i), r, opening, AdmittedPost(m, i, now));
  }

  lemma AdmissionOpens(s: Server, i: Slot, now: nat)
    requires Inv(s) && s.phase == LobbyOpen && IsCandidate(s.players[i]) && (s.joinDeadline == 0 || now < s.joinDeadline)
    ensures var b := if s.joinDeadline == 0 then Opened(s, now) else s;
            && b.phase == LobbyOpen && Connected(MaybeAdmit(s, i, now).players) <= Connected(b.players)
            && Sends(Timed(s, now), b, ToAll(if s.joinDeadline == 0 then [OPENING] else []))
            && MaybeAdmit(s, i, now) == Admitted(b, i, now)
  {
    MaybeAdmitDecides(s, i, now);
    OpenedSound(s, i, now);
    BroadcastSends(s.(joinDeadline := now + JOIN_WINDOW_SECONDS), OPENING, now);
    SendsNothing(s);
    hide Admitted, Broadcast, Sends, Sound, Connected, Kept;
  }

  /** A candidate that is itself dropped by the announcement of the timer is still announced, without a
      name. */
  lemma NamelessAdmission(s: Server, i: Slot, now: nat, k: Slot)
    requires Inv(s) && s.phase == LobbyOpen && IsCandidate(s.players[i]) && s.joinDeadline == 0
    requires Enqueued(s.players[i].outbuf, OPENING).None? && MaybeAdmit(s, i, now).players[k].connected
    ensures var p, q := s.players[k], MaybeAdmit(s, i, now).players[k];
            && k != i && p.connected && Extends(p.outbuf, q.outbuf) && "JOINED " in Gained(p.outbuf, q.outbuf)
  {
    var s0, b, r := s.(joinDeadline := now + JOIN_WINDOW_SECONDS), Opened(s, now), MaybeAdmit(s, i, now);
    var m := Marked(b, i, Frame("JOINED_MATCH"));
    NamelessOpens(s, i, now);
    NamelessIsMarked(b, i, now);
    SetTimerSound(s, s0);
    NumberedPlain(JOIN_WINDOW_SECONDS);
    assert Plain("JOINED ");
    assert k != i ==> m.players[k] == b.players[k];
    hide Broadcast, BroadcastGameState, Admitted, MaybeAdmit, Extends, Gained, Feeds, Sound, Plain, Enqueued, Opened, Marked;
    LineThenState(m, "JOINED ", now, k);
    BroadcastFeeds(s0, OPENING, now);
    assert b == Broadcast(s0, OPENING, now) by { OpenedIs(s, now); }
    FedSlot(s0.players, b.players, k);
    ToldLater(s.players[k].outbuf, b.players[k].outbuf, r.players[k].outbuf, "JOINED ");
  }

  lemma OpenedIs(s: Server, now: nat)
    ensures Opened(s, now) == Broadcast(s.(joinDeadline := now + JOIN_WINDOW_SECONDS), OPENING, now)
  {
    hide Broadcast;
  }

  lemma NamelessOpens(s: Server, i: Slot, now: nat)
    requires Inv(s) && s.phase == LobbyOpen && IsCandidate(s.players[i]) && s.joinDeadline == 0
    requires Enqueued(s.players[i].outbuf, OPENING).None?
    ensures var b := Opened(s, now);
            && b.players[i] == EMPTY_SLOT && Sound(Marked(b, i, Frame("JOINED_MATCH")))
            && !Marked(b, i, Frame("JOINED_MATCH")).players[i].connected
            && MaybeAdmit(s, i, now) == Admitted(b, i, now)
  {
    var s0, b := s.(joinDeadline := now + JOIN_WINDOW_SECONDS), Opened(s, now);
    OpenedSound(s, i, now);
    SetTimerSound(s, s0);
    BroadcastTouchesDelivered(s0, OPENING, now, i);
    hide Broadcast, Admitted, Sound, Kept, Enqueued;
    MarkedSound(b, i, Frame("JOINED_MATCH"));
  }

  lemma NamelessIsMarked(b: Server, i: Slot, now: nat)
    requires b.players[i] == EMPTY_SLOT
    ensures Admitted(b, i, now) == BroadcastGameState(Broadcast(Marked(b, i, Frame("JOINED_MATCH")), "JOINED ", now), now)
  {
    var p := EMPTY_SLOT.(admitted := true, waiting := true);
    assert "" + Frame("JOINED_MATCH") == Frame("JOINED_MATCH");
    assert Enqueued("", "JOINED_MATCH") == Some(Frame("JOINED_MATCH"));
    assert JoinedLine("") == "JOINED ";
    hide Broadcast, BroadcastGameState, Enqueued, JoinedLine, Reevaluate;
    assert Marked(b, i, Frame("JOINED_MATCH")) == WithPlayer(b, i, p.(outbuf := Frame("JOINED_MATCH")));
  }

  // ---------------------------------------------------------------- a tick

  /** A due tick, exactly: everybody is sent the positions of all admitted players after it, and, if it
      leaves at most one type, its result. */
  lemma TickSends(w: World, now: nat, clock: real, root: real -> real)
    requires Inv(w.server) && w.server.phase == RoundActive && TickDue(w, now, clock)
    ensures var s := w.server;
            var t := s.(players := Tick(s.players, CHASE_TICK_SECONDS, root));
            var r := Step(w, Timer(now, clock), root);
            && r.lastChaseTick == clock
            && if TypesAlive(t.players) <= 1 then
                 Sends(t.(phase := GameOver), r.server, Then(ToAll(PlayerLines(t.players)), ResultLines(t.players)))
               else
                 Sends(t, r.server, ToAll(PlayerLines(t.players)))
  {
    var s := w.server;
    var t := s.(players := Tick(s.players, CHASE_TICK_SECONDS, root));
    TimerStep(w, Timer(now, clock), root);
    ExpiryIsIdle(s, now);
    var m := BroadcastPositions(t, now);
    var post := ToAll(PlayerLines(t.players));
    PositionsSend(t, now);
    PostedCounters(t.players, post);
    hide Tick, PositionsUpTo, PlayerLines, ToAll, Sound, PostedAll, AllTake, ResultLines, EndGame, TypesAlive, CountIf;
    var r := Chasing(s, now, root);
    assert AdvanceTimers(w, now, clock, root) == World(r, clock);
    if TypesAlive(t.players) <= 1 {
      assert r == Reevaluate(m, now) && Connected(r.players) <= Connected(m.players);
      EndGameFrom(t, m, post, r);
    }
  }

  // ---------------------------------------------------------------- a rematch

  /** A rematch tells every registered player that stays to choose again, and that the lobby waits. */
  lemma RematchIsTold(s: Server, k: Slot, now: nat, i: Slot)
    requires s.phase == GameOver && HandleCommand(s, i, Rematch, now).players[k].connected && s.players[k].registered
    ensures var p, q := s.players[k], HandleCommand(s, i, Rematch, now).players[k];
            && p.connected && Extends(p.outbuf, q.outbuf)
            && Gained(p.outbuf, q.outbuf) == ["MATCH_RESET", "SPECTATING", "CHOOSE_TYPE", "CHOOSE_SPAWN 10 10", "LOBBY_WAITING"]
  {
    var p, q := s.players[k], HandleCommand(s, i, Rematch, now).players[k];
    assert q == if p.connected then ResetPlayer(p) else p;
    FixedStatus();
    assert AllPlain(RESET_LINES);
    hide EnqueuedAll, Extends, Gained, Plain;
    assert FreshProgress(p).outbuf == p.outbuf;
    GainedAll(p.outbuf, RESET_LINES);
  }
}
