/** Sending, exactly. An operation that sends certain lines to each slot, and otherwise only re-evaluates
    after a loss, loses nobody if and only if every connected player's buffer takes all lines meant
    for it; and then it has changed nothing but the buffers, by those lines. */
module Mail {
  import opened Common
  import opened Text
  import opened Protocol
  import opened Game
  import opened ServerState
  import opened ServerInvariant
  import opened SnapshotText

  /** The lines for each slot. */
  type Post = m: seq<seq<string>> | |m| == MAX_PLAYERS witness seq(MAX_PLAYERS, _ => [])

  function ToAll(lines: seq<string>): Post { seq(MAX_PLAYERS, _ => lines) }

  function ToOne(i: Slot, lines: seq<string>): Post { seq(MAX_PLAYERS, k => if k == i then lines else []) }

  function Then(a: Post, b: Post): Post {
    seq(MAX_PLAYERS, k requires 0 <= k < MAX_PLAYERS => a[k] + b[k])
  }

  predicate Takes(p: Player, lines: seq<string>) { EnqueuedAll(p.outbuf, lines).Some? }

  function Posted(p: Player, lines: seq<string>): Player {
    match EnqueuedAll(p.outbuf, lines)
    case Some(outbuf) => p.(outbuf := outbuf)
    case None => p
  }

  /** Every connected player's buffer takes all that is meant for it. */
  predicate AllTake(ps: Table, m: Post) {
    forall k: Slot :: ps[k].connected ==> Takes(ps[k], m[k])
  }

  function PostedAll(ps: Table, m: Post): Table {
    seq(MAX_PLAYERS, k requires 0 <= k < MAX_PLAYERS => if ps[k].connected then Posted(ps[k], m[k]) else ps[k])
  }

  ghost predicate Sends(s: Server, r: Server, m: Post) {
    && Connected(r.players) <= Connected(s.players)
    && (Connected(r.players) == Connected(s.players) <==> AllTake(s.players, m))
    && (AllTake(s.players, m) ==> r == s.(players := PostedAll(s.players, m)))
  }

  predicate SamePlayer(p: Player, q: Player) { q == p.(outbuf := q.outbuf) }

  lemma SameTwice(p: Player, q: Player, r: Player)
    requires SamePlayer(p, q) && SamePlayer(q, r)
    ensures SamePlayer(p, r)
  {
    assert r == p.(outbuf := q.outbuf).(outbuf := r.outbuf);
  }

  /** The same state but for what was sent. */
  ghost predicate SameGame(s: Server, r: Server) {
    && r == s.(players := r.players)
    && forall k: Slot :: SamePlayer(s.players[k], r.players[k])
  }

  // ---------------------------------------------------------------- tables

  lemma ConnectedSlots(ps: Table)
    ensures forall k: Slot :: k as int in Connected(ps) <==> ps[k].connected
  {
  }

  lemma SameConnected(ps: Table, qs: Table)
    requires forall k: Slot :: qs[k].connected == ps[k].connected
    ensures Connected(qs) == Connected(ps)
  {
  }

  lemma PostedSlot(ps: Table, m: Post, k: Slot)
    ensures SamePlayer(ps[k], PostedAll(ps, m)[k])
  {
    hide EnqueuedAll;
    PostedSame(ps[k], m[k]);
    SameItself(ps[k]);
    hide Posted, SamePlayer;
  }

  lemma PostedSame(p: Player, lines: seq<string>)
    ensures SamePlayer(p, Posted(p, lines))
  {
    hide EnqueuedAll;
    SameItself(p);
    if EnqueuedAll(p.outbuf, lines).Some? {
      var outbuf := EnqueuedAll(p.outbuf, lines).value;
      assert Posted(p, lines) == p.(outbuf := outbuf);
      hide Posted;
    } else {
      assert Posted(p, lines) == p;
      hide Posted, SamePlayer;
    }
  }

  lemma SameItself(p: Player)
    ensures SamePlayer(p, p)
  {
  }

  lemma PostedConnected(ps: Table, m: Post)
    ensures Connected(PostedAll(ps, m)) == Connected(ps)
  {
    forall k: Slot
      ensures PostedAll(ps, m)[k].connected == ps[k].connected
    {
      PostedSlot(ps, m, k);
    }
    hide PostedAll;
    SameConnected(ps, PostedAll(ps, m));
  }

  lemma PostedTwice(p: Player, a: seq<string>, b: seq<string>)
    ensures Takes(p, a + b) <==> Takes(p, a) && Takes(Posted(p, a), b)
    ensures Takes(p, a) ==> Posted(p, a + b) == if Takes(Posted(p, a), b) then Posted(Posted(p, a), b) else p
  {
    EnqueuedAllConcat(p.outbuf, a, b);
    hide EnqueuedAll;
  }

  lemma AllTakeThen(ps: Table, a: Post, b: Post)
    ensures AllTake(ps, Then(a, b)) <==> AllTake(ps, a) && AllTake(PostedAll(ps, a), b)
    ensures AllTake(ps, Then(a, b)) ==> PostedAll(ps, Then(a, b)) == PostedAll(PostedAll(ps, a), b)
  {
    hide Takes, Posted;
    var qs := PostedAll(ps, a);
    forall k: Slot
      ensures qs[k].connected == ps[k].connected
      ensures ps[k].connected ==> (Takes(ps[k], Then(a, b)[k]) <==> Takes(ps[k], a[k]) && Takes(qs[k], b[k]))
      ensures ps[k].connected && Takes(ps[k], a[k]) && Takes(qs[k], b[k]) ==>
                Posted(ps[k], Then(a, b)[k]) == Posted(qs[k], b[k])
    {
      PostedSlot(ps, a, k);
      PostedTwice(ps[k], a[k], b[k]);
    }
  }

  // ---------------------------------------------------------------- composing

  lemma SendsNothing(s: Server)
    ensures Sends(s, s, ToAll([]))
  {
    forall k: Slot
      ensures Takes(s.players[k], []) && Posted(s.players[k], []) == s.players[k]
    {
      EnqueuedNothing(s.players[k].outbuf);
    }
    hide Takes, Posted;
    assert PostedAll(s.players, ToAll([])) == s.players;
  }

  /** One operation that sends, and then another. */
  lemma SendsThen(s: Server, b: Server, c: Server, m: Post, n: Post)
    requires Sends(s, b, m) && Connected(c.players) <= Connected(b.players)
    requires Connected(b.players) == Connected(s.players) ==> Sends(b, c, n)
    ensures Sends(s, c, Then(m, n))
  {
    AllTakeThen(s.players, m, n);
    hide AllTake, PostedAll, Then, Connected;
  }

  /** The same sending from a state with the same buffers. */
  lemma SendsFrom(s: Server, b: Server, s': Server, b': Server, m: Post)
    requires Sends(s, b, m)
    requires forall k: Slot :: s'.players[k].connected == s.players[k].connected
                               && s'.players[k].outbuf == s.players[k].outbuf
    requires Connected(b'.players) == Connected(b.players)
    requires AllTake(s.players, m) ==> b' == s'.(players := PostedAll(s'.players, m))
    ensures Sends(s', b', m)
  {
    SameConnected(s.players, s'.players);
    hide EnqueuedAll, PostedAll;
  }

  lemma SendsShrinks(s: Server, r: Server, m: Post)
    requires Sends(s, r, m)
    ensures Connected(r.players) <= Connected(s.players)
  {
  }

  /** Whether lines are taken depends on the buffers alone. */
  lemma SameTake(ps: Table, qs: Table, m: Post)
    requires forall k: Slot :: qs[k].connected == ps[k].connected && qs[k].outbuf == ps[k].outbuf
    ensures AllTake(qs, m) <==> AllTake(ps, m)
    ensures Connected(qs) == Connected(ps)
  {
    SameConnected(ps, qs);
    hide EnqueuedAll;
  }

  lemma ToAllThen(a: seq<string>, b: seq<string>)
    ensures Then(ToAll(a), ToAll(b)) == ToAll(a + b)
  {
  }

  /** A state that has only been sent lines is the same game. */
  lemma SendsSame(s: Server, r: Server, m: Post)
    requires Sends(s, r, m) && Connected(r.players) == Connected(s.players)
    ensures SameGame(s, r) && forall k: Slot :: r.players[k].connected ==>
              |s.players[k].outbuf| <= OUTBUF_SIZE ==> |r.players[k].outbuf| <= OUTBUF_SIZE
  {
    forall k: Slot
      ensures SamePlayer(s.players[k], r.players[k])
      ensures r.players[k].connected && |s.players[k].outbuf| <= OUTBUF_SIZE ==> |r.players[k].outbuf| <= OUTBUF_SIZE
    {
      PostedSlot(s.players, m, k);
      EnqueuedAllGrows(s.players[k].outbuf, m[k]);
      hide EnqueuedAll;
    }
  }

  // ---------------------------------------------------------------- the server's sendings

  lemma OneLine(p: Player, line: string)
    ensures Takes(p, [line]) <==> Enqueued(p.outbuf, line).Some?
    ensures Takes(p, [line]) ==> Posted(p, [line]) == Delivered(p, line)
    ensures !Takes(p, [line]) ==> Delivered(p, line) == EMPTY_SLOT
  {
    EnqueuedAllOne(p.outbuf, line);
    hide EnqueuedAll, Enqueued;
  }

  lemma BroadcastSends(s: Server, line: string, now: nat)
    ensures Sends(s, Broadcast(s, line, now), ToAll([line]))
  {
    var s' := s.(players := MapConnected(s.players, p => Delivered(p, line)));
    var m := ToAll([line]);
    forall k: Slot
      ensures s.players[k].connected ==>
                (s'.players[k].connected <==> Takes(s.players[k], m[k]))
                && (Takes(s.players[k], m[k]) ==> s'.players[k] == Posted(s.players[k], m[k]))
      ensures !s.players[k].connected ==> s'.players[k] == s.players[k]
    {
      OneLine(s.players[k], line);
      hide Takes, Posted, Enqueued;
    }
    ConnectedSlots(s.players);
    ConnectedSlots(s'.players);
    hide Takes, Posted, Delivered, MapConnected, Reevaluate;
    assert Connected(s'.players) <= Connected(s.players);
    if AllTake(s.players, m) {
      assert s'.players == PostedAll(s.players, m);
    }
  }

  lemma SameLine(p: Player, q: Player)
    requires SamePlayer(p, q)
    ensures PlayerLine(q) == PlayerLine(p) && IsAdmitted(q) == IsAdmitted(p)
  {
  }

  lemma {:induction false} PlayerLinesPrefix(ps: seq<Player>, k: nat)
    requires k <= |ps|
    ensures PlayerLines(ps[..k]) <= PlayerLines(ps)
    ensures k < |ps| ==> PlayerLines(ps[..k + 1]) == PlayerLines(ps[..k]) + if IsAdmitted(ps[k]) then [PlayerLine(ps[k])] else []
  {
    hide PlayerLine, IsAdmitted;
    if k < |ps| {
      assert ps[..k + 1][..k] == ps[..k];
      if k + 1 < |ps| {
        PlayerLinesPrefix(ps[..|ps| - 1], k);
        assert ps[..|ps| - 1][..k] == ps[..k];
      } else {
        assert ps[..k + 1] == ps;
      }
    } else {
      assert ps[..k] == ps;
    }
  }

  lemma {:induction false} PositionsUpToSend(s: Server, n: nat, now: nat)
    requires n <= MAX_PLAYERS
    ensures Sends(s, PositionsUpTo(s, n, now), ToAll(PlayerLines(s.players[..n])))
  {
    hide Broadcast, PlayerLine, Sends, Connected, IsAdmitted, ToAll;
    if n == 0 {
      SendsNothing(s);
    } else {
      var lines := PlayerLines(s.players[..n - 1]);
      PositionsUpToSend(s, n - 1, now);
      PlayerLinesPrefix(s.players, n - 1);
      hide PlayerLines;
      NextPosition(s, PositionsUpTo(s, n - 1, now), n - 1, lines, now);
    }
  }

  lemma NextPosition(s: Server, m: Server, k: Slot, lines: seq<string>, now: nat)
    requires Sends(s, m, ToAll(lines))
    ensures var c := if IsAdmitted(m.players[k]) then Broadcast(m, PlayerLine(m.players[k]), now) else m;
            Sends(s, c, ToAll(lines + if IsAdmitted(s.players[k]) then [PlayerLine(s.players[k])] else []))
  {
    var c := if IsAdmitted(m.players[k]) then Broadcast(m, PlayerLine(m.players[k]), now) else m;
    var more := if IsAdmitted(s.players[k]) then [PlayerLine(s.players[k])] else [];
    if Connected(m.players) == Connected(s.players) {
      PostedSlot(s.players, ToAll(lines), k);
      SameLine(s.players[k], m.players[k]);
      hide PlayerLine, Broadcast, IsAdmitted, SamePlayer;
      BroadcastSends(m, PlayerLine(m.players[k]), now);
      SendsNothing(m);
      assert Sends(m, c, ToAll(more));
    }
    assert Connected(c.players) <= Connected(m.players);
    hide Sends, PlayerLine, Broadcast, IsAdmitted, ToAll;
    SendsThen(s, m, c, ToAll(lines), ToAll(more));
    ToAllThen(lines, more);
  }

  lemma PositionsSend(s: Server, now: nat)
    ensures Sends(s, BroadcastPositions(s, now), ToAll(PlayerLines(s.players)))
  {
    hide PositionsUpTo, Sends;
    PositionsUpToSend(s, MAX_PLAYERS, now);
    assert s.players[..MAX_PLAYERS] == s.players;
  }

  /** Lines of a table depend on no buffer. */
  lemma {:induction false} SameLines(ps: seq<Player>, qs: seq<Player>)
    requires |ps| == |qs| && forall k :: 0 <= k < |ps| ==> PlayerLine(qs[k]) == PlayerLine(ps[k]) && IsAdmitted(qs[k]) == IsAdmitted(ps[k])
    ensures PlayerLines(qs) == PlayerLines(ps)
  {
    hide PlayerLine, IsAdmitted;
    if ps != [] {
      SameLines(ps[..|ps| - 1], qs[..|qs| - 1]);
    }
  }

  lemma PostedLines(ps: Table, m: Post)
    ensures PlayerLines(PostedAll(ps, m)) == PlayerLines(ps)
  {
    var qs := PostedAll(ps, m);
    forall k: Slot
      ensures PlayerLine(qs[k]) == PlayerLine(ps[k]) && IsAdmitted(qs[k]) == IsAdmitted(ps[k])
    {
      PostedSlot(ps, m, k);
      SameLine(ps[k], qs[k]);
    }
    hide PlayerLine, IsAdmitted, PostedAll;
    SameLines(ps, qs);
  }

  /** A line to everybody and then the positions. */
  lemma LineAndPositionsSend(s: Server, line: string, now: nat)
    ensures Sends(s, BroadcastPositions(Broadcast(s, line, now), now), ToAll([line] + PlayerLines(s.players)))
  {
    BroadcastSends(s, line, now);
    var b := Broadcast(s, line, now);
    PositionsSend(b, now);
    PostedLines(s.players, ToAll([line]));
    assert Connected(b.players) == Connected(s.players) ==> PlayerLines(b.players) == PlayerLines(s.players);
    hide Sends, Broadcast, BroadcastPositions, PlayerLines, ToAll, Connected;
    SendsThen(s, b, BroadcastPositions(b, now), ToAll([line]), ToAll(PlayerLines(s.players)));
    ToAllThen([line], PlayerLines(s.players));
  }

  lemma StartActiveRoundSend(s: Server, now: nat)
    ensures var t := StartRound(s, now);
            Sends(t, StartActiveRound(s, now), ToAll([RoundStartLine(s.roundNo + 1, ROUND_SECONDS)] + PlayerLines(t.players)))
  {
    hide Sends, Broadcast, BroadcastPositions, PlayerLines, ToAll, RoundStartLine;
    LineAndPositionsSend(StartRound(s, now), RoundStartLine(s.roundNo + 1, ROUND_SECONDS), now);
  }

  function ResultLines(ps: Table): Post {
    seq(MAX_PLAYERS, k requires 0 <= k < MAX_PLAYERS => GameOverLines(ps[k]))
  }

  lemma EndGameSends(s: Server)
    ensures Sends(s.(phase := GameOver), EndGame(s), ResultLines(s.players))
  {
    var r, m := EndGame(s), ResultLines(s.players);
    hide EnqueuedAll, GameOverLines;
    forall k: Slot
      ensures s.players[k].connected ==>
                (r.players[k].connected <==> Takes(s.players[k], m[k]))
                && (Takes(s.players[k], m[k]) ==> r.players[k] == Posted(s.players[k], m[k]))
      ensures !s.players[k].connected ==> r.players[k] == s.players[k]
    {
    }
    ConnectedSlots(s.players);
    ConnectedSlots(r.players);
    hide Takes, Posted, MapConnected;
    if AllTake(s.players, m) {
      assert r.players == PostedAll(s.players, m);
    }
  }

  lemma EndGameShrinks(s: Server)
    ensures Connected(EndGame(s).players) <= Connected(s.players)
  {
    EndGameSends(s);
  }

  lemma PostedResults(ps: Table, m: Post)
    ensures ResultLines(PostedAll(ps, m)) == ResultLines(ps)
  {
    forall k: Slot
      ensures GameOverLines(PostedAll(ps, m)[k]) == GameOverLines(ps[k])
    {
      PostedSlot(ps, m, k);
    }
    hide PostedAll, GameOverLines;
  }

  /** Sending, and then the end of the match. Its results are those of the players as they were before. */
  lemma EndGameFrom(s: Server, b: Server, m: Post, c: Server)
    requires Sends(s, b, m) && Connected(c.players) <= Connected(b.players)
    requires Connected(b.players) == Connected(s.players) ==> c == EndGame(b)
    ensures Sends(s.(phase := GameOver), c, Then(m, ResultLines(s.players)))
  {
    EndGameSends(b);
    PostedResults(s.players, m);
    hide EndGame, ResultLines, PostedAll, AllTake;
    var s', b' := s.(phase := GameOver), b.(phase := GameOver);
    SendsFrom(s, b, s', b', m);
    SendsThen(s', b', c, m, ResultLines(s.players));
  }

  lemma StartedConnected(s: Server, now: nat)
    ensures var r := StartRound(s, now);
            && Connected(r.players) == Connected(s.players)
            && forall k: Slot :: r.players[k].connected == s.players[k].connected && r.players[k].outbuf == s.players[k].outbuf
  {
  }

  lemma StartedPosted(s: Server, m: Post, now: nat)
    ensures var r := s.(players := PostedAll(s.players, m));
            StartRound(r, now) == StartRound(s, now).(players := PostedAll(StartRound(s, now).players, m))
  {
    hide EnqueuedAll;
  }

  /** What starting a round sends to everybody, for the table with which it starts. */
  function StartLines(roundNo: int, ps: Table): seq<string> {
    [RoundStartLine(roundNo, ROUND_SECONDS)] + PlayerLines(ps)
  }

  /** Sending, and then the start of a round. */
  lemma StartFrom(s: Server, b: Server, m: Post, c: Server, now: nat)
    requires Sends(s, b, m) && Connected(c.players) <= Connected(b.players)
    requires Connected(b.players) == Connected(s.players) ==> c == StartActiveRound(b, now)
    ensures var t := StartRound(s, now);
            Sends(t, c, Then(m, ToAll(StartLines(s.roundNo + 1, t.players))))
  {
    var t, b' := StartRound(s, now), StartRound(b, now);
    StartedPosted(s, m, now);
    StartedConnected(s, now);
    StartedConnected(b, now);
    StartActiveRoundSend(b, now);
    PostedLines(t.players, m);
    hide StartRound, PostedAll, AllTake, StartActiveRound, PlayerLines, ToAll, Then, RoundStartLine;
    SendsFrom(s, b, t, b', m);
    SendsThen(t, b', c, m, ToAll(StartLines(s.roundNo + 1, t.players)));
  }

  // ---------------------------------------------------------------- room in bytes

  /** Every connected player has room for `n` more bytes. */
  predicate Roomy(ps: Table, n: int) {
    forall k :: 0 <= k < MAX_PLAYERS && ps[k].connected ==> |ps[k].outbuf| + n <= OUTBUF_SIZE
  }

  /** Lines that can be queued and take at most `n` bytes. */
  ghost predicate Brief(lines: seq<string>, n: nat) {
    && (forall k :: 0 <= k < |lines| ==> |lines[k]| < MAX_LINE - 2)
    && |Framed(lines)| <= n
  }

  lemma BriefThen(a: seq<string>, m: nat, b: seq<string>, n: nat)
    requires Brief(a, m) && Brief(b, n)
    ensures Brief(a + b, m + n)
  {
    FramedConcat(a, b);
  }

  lemma BriefLine(line: string, n: nat)
    requires |line| < n && |line| < MAX_LINE - 2
    ensures Brief([line], n)
  {
    FramedOne(line);
  }

  lemma BriefMore(lines: seq<string>, m: nat, n: nat)
    requires Brief(lines, m) && m <= n
    ensures Brief(lines, n)
  {
  }

  lemma BriefNothing(n: nat)
    ensures Brief([], n)
  {
  }

  lemma RoomTakes(ps: Table, m: Post, n: nat)
    requires Roomy(ps, n) && forall k: Slot :: ps[k].connected ==> Brief(m[k], n)
    ensures AllTake(ps, m)
  {
    forall k: Slot | ps[k].connected
      ensures Takes(ps[k], m[k])
    {
      assert Brief(m[k], n);
      EnqueuedAllAppends(ps[k].outbuf, m[k]);
      hide Framed, EnqueuedAll;
    }
  }

  const LINE_ROOM := 59

  lemma PositionsBrief(ps: Table)
    requires AllPrintable(ps)
    ensures Brief(PlayerLines(ps), LINE_ROOM * MAX_PLAYERS)
  {
    hide PlayerLines, Framed;
    PlayerLinesShort(ps);
  }

  /** A line of at most 53 bytes and the positions of all players. */
  const START_ROOM := 54 + LINE_ROOM * MAX_PLAYERS

  lemma LineAndPositionsBrief(line: string, ps: Table)
    requires AllPrintable(ps) && |line| <= 53
    ensures Brief([line] + PlayerLines(ps), START_ROOM)
  {
    hide PlayerLines, Framed, AllPrintable, Brief;
    BriefLine(line, 54);
    PositionsBrief(ps);
    BriefThen([line], 54, PlayerLines(ps), LINE_ROOM * MAX_PLAYERS);
  }

  lemma ResultBrief(p: Player)
    ensures Brief(GameOverLines(p), 16)
  {
    BriefNothing(16);
    BriefLine("GAME_OVER WIN", 16);
    BriefLine("GAME_OVER LOSE", 16);
    BriefLine("GAME_OVER", 16);
    hide Brief;
  }

  lemma StartedPrintable(s: Server, now: nat)
    requires AllPrintable(s.players)
    ensures AllPrintable(StartRound(s, now).players)
  {
    forall k: Slot
      ensures IsAdmitted(StartRound(s, now).players[k]) ==> Printable(StartRound(s, now).players[k])
    {
    }
  }

  /** With that much room in every buffer starting a round loses nobody. */
  lemma StartActiveRoundRoomy(s: Server, now: nat)
    requires Roomy(s.players, START_ROOM) && AllPrintable(s.players) && IsWord(s.roundNo + 1)
    ensures SameGame(StartRound(s, now), StartActiveRound(s, now))
    ensures Connected(StartActiveRound(s, now).players) == Connected(s.players)
  {
    var t, line := StartRound(s, now), RoundStartLine(s.roundNo + 1, ROUND_SECONDS);
    var lines := [line] + PlayerLines(t.players);
    StartedConnected(s, now);
    StartedPrintable(s, now);
    StartActiveRoundSend(s, now);
    RoundHeader(s.roundNo + 1, ROUND_SECONDS);
    hide StartRound, AllPrintable, StartActiveRound, PlayerLines, Brief, AllTake, RoundStartLine;
    LineAndPositionsBrief(line, t.players);
    RoomTakes(t.players, ToAll(lines), START_ROOM);
    SendsSame(t, StartActiveRound(s, now), ToAll(lines));
  }
}
