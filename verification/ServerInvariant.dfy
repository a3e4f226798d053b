/** What every operation of the transition engine keeps, nested drops included. */
module ServerInvariant {
  import opened Common
  import opened Protocol
  import opened Game
  import opened ServerState

  // ---------------------------------------------------------------- the invariant

  /** A captured player; everybody else who has a spawn stands on the board. */
  predicate IsEliminated(p: Player) { p.admitted && !p.alive && !p.waiting }

  ghost predicate Placed(p: Player) {
    if p.spawnChosen && !IsEliminated(p) then InBox(p.x, p.y) else p.x == -1.0 && p.y == -1.0
  }

  /** The record of one connected player. */
  ghost predicate PlayerOk(p: Player, nextId: int) {
    && 0 < p.id < nextId
    && |p.outbuf| <= OUTBUF_SIZE
    && (if p.registered then IsName(p.name) else p == FreshProgress(p) && p.name == "")
    && (p.admitted ==> p.registered && p.choiceChosen && p.spawnChosen)
    && (p.alive || p.waiting ==> p.admitted)
    && !(p.alive && p.waiting)
    && (p.choiceChosen ==> IsRps(p.choice))
    && Placed(p)
  }

  /** Ids, and the names of registered players, are pairwise distinct. */
  ghost predicate Distinct(ps: seq<Player>) {
    forall i, j :: 0 <= i < j < |ps| && ps[i].connected && ps[j].connected ==>
      && ps[i].id != ps[j].id
      && (ps[i].registered && ps[j].registered ==> ps[i].name != ps[j].name)
  }

  ghost predicate Records(s: Server) {
    && Distinct(s.players)
    && 0 < s.nextId
    && forall k :: 0 <= k < MAX_PLAYERS && s.players[k].connected ==> PlayerOk(s.players[k], s.nextId)
  }

  /** All players counted as winners hold the same choice. */
  ghost predicate Unanimous(ps: seq<Player>) {
    forall i, j :: 0 <= i < j < |ps| && IsWinner(ps[i]) && IsWinner(ps[j]) ==> ps[i].choice == ps[j].choice
  }

  /** What the phase says about the flags. Runs never enter the repick phase. */
  ghost predicate PhaseOk(s: Server) {
    match s.phase
    case LobbyOpen => NobodyPlays(s.players)
    case Setup => NobodyPlays(s.players)
    case RoundActive => NobodyWaits(s.players)
    case Repick => false
    case GameOver => Unanimous(s.players)
  }

  ghost predicate NobodyPlays(ps: seq<Player>) {
    forall k :: 0 <= k < |ps| && ps[k].connected ==> !ps[k].alive && (ps[k].admitted ==> ps[k].waiting)
  }

  ghost predicate NobodyWaits(ps: seq<Player>) {
    forall k :: 0 <= k < |ps| && ps[k].connected ==> !ps[k].waiting
  }

  ghost predicate Sound(s: Server) { Records(s) && PhaseOk(s) }

  ghost predicate HasAdmitted(ps: seq<Player>) {
    exists k :: 0 <= k < |ps| && IsAdmitted(ps[k])
  }

  /** A round in progress has at least two types left. */
  ghost predicate Contested(s: Server) {
    s.phase == RoundActive ==> TypesAlive(s.players) >= 2
  }

  // ---------------------------------------------------------------- what nested operations may change

  /** A slot that is still connected is the same player in the same place, with the same standing;
      only what it was sent, and the flags of a round, may differ. */
  ghost predicate Survives(p: Player, q: Player) {
    q.connected ==>
      && p.connected
      && q == p.(outbuf := q.outbuf, alive := q.alive, waiting := q.waiting, inRound := q.inRound,
                 repickSubmitted := q.repickSubmitted, repickChoice := q.repickChoice)
      && (q.alive || q.waiting) == (p.alive || p.waiting)
      && p.outbuf <= q.outbuf && |q.outbuf| <= OUTBUF_SIZE
  }

  ghost predicate Kept(s: Server, r: Server) {
    && r.nextId == s.nextId
    && forall k :: 0 <= k < MAX_PLAYERS ==> Survives(s.players[k], r.players[k])
  }

  /** A connected slot was sent something or given up; the others are as they were. */
  ghost predicate Pruned(ps: Table, qs: Table) {
    forall k :: 0 <= k < MAX_PLAYERS ==>
      if ps[k].connected then
        || qs[k] == EMPTY_SLOT
        || (qs[k] == ps[k].(outbuf := qs[k].outbuf)
            && ps[k].outbuf <= qs[k].outbuf && (|ps[k].outbuf| <= OUTBUF_SIZE ==> |qs[k].outbuf| <= OUTBUF_SIZE))
      else
        qs[k] == ps[k]
  }

  /** What sending to everybody, with all that follows from it, may do. */
  ghost predicate Nested(s: Server, r: Server) {
    && Sound(r) && Kept(s, r)
    && Connected(r.players) <= Connected(s.players)
    && (match s.phase
        case LobbyOpen =>
          && r.phase == LobbyOpen
          && r.joinDeadline == (if Connected(r.players) != Connected(s.players) && !HasAdmitted(r.players) then 0
                                else s.joinDeadline)
        case Setup => r.phase == Setup || r.phase == RoundActive || r.phase == GameOver
        case RoundActive =>
          && (r.phase == RoundActive || r.phase == GameOver)
          && (Contested(s) || Connected(r.players) != Connected(s.players) ==> Contested(r))
        case Repick => true
        case GameOver => r.phase == GameOver)
  }

  /** What a re-evaluation establishes. */
  ghost predicate Settled(s: Server, r: Server) {
    && Sound(r) && Kept(s, r)
    && (match s.phase
        case LobbyOpen => r == s.(joinDeadline := if HasAdmitted(s.players) then s.joinDeadline else 0)
        case Setup => r.phase == RoundActive || r.phase == GameOver
        case RoundActive => (r.phase == RoundActive || r.phase == GameOver) && Contested(r)
        case Repick => true
        case GameOver => r == s)
  }

  // ---------------------------------------------------------------- small steps

  lemma {:induction false} EnqueuedAllGrows(pending: string, texts: seq<string>)
    ensures var r := EnqueuedAll(pending, texts);
            r.Some? ==> pending <= r.value && (|pending| <= OUTBUF_SIZE ==> |r.value| <= OUTBUF_SIZE)
    decreases |texts|
  {
    if texts != [] && Enqueued(pending, texts[0]).Some? {
      EnqueuedAllGrows(Enqueued(pending, texts[0]).value, texts[1..]);
    }
  }

  lemma BroadcastPrunes(ps: Table, line: string)
    ensures Pruned(ps, MapConnected(ps, p => Delivered(p, line)))
  {
  }

  lemma EndGamePrunes(s: Server)
    ensures Pruned(s.players, EndGame(s).players)
  {
    hide EnqueuedAll, GameOverLines;
    forall k | 0 <= k < MAX_PLAYERS {
      EnqueuedAllGrows(s.players[k].outbuf, GameOverLines(s.players[k]));
    }
  }

  lemma PrunedKeeps(s: Server, r: Server)
    requires Records(s) && r.nextId == s.nextId && Pruned(s.players, r.players)
    ensures Records(r) && Kept(s, r) && Connected(r.players) <= Connected(s.players)
    ensures Unanimous(s.players) ==> Unanimous(r.players)
    ensures r.phase == s.phase && PhaseOk(s) ==> PhaseOk(r)
  {
    assert forall k :: 0 <= k < MAX_PLAYERS && r.players[k].connected ==>
      r.players[k] == s.players[k].(outbuf := r.players[k].outbuf);
  }

  /** Losing nobody, a table keeps its types, and its admitted players. */
  lemma PrunedNobody(ps: Table, qs: Table)
    requires Pruned(ps, qs) && Connected(qs) == Connected(ps)
    ensures TypesAlive(qs) == TypesAlive(ps) && (HasAdmitted(qs) <==> HasAdmitted(ps))
    ensures forall k :: 0 <= k < MAX_PLAYERS ==> qs[k] == ps[k].(outbuf := qs[k].outbuf)
  {
    assert forall k :: 0 <= k < MAX_PLAYERS ==> (k in Connected(ps) <==> ps[k].connected);
    assert forall k :: 0 <= k < MAX_PLAYERS ==> (k in Connected(qs) <==> qs[k].connected);
    assert forall k :: 0 <= k < MAX_PLAYERS ==> IsAlive(qs[k]) == IsAlive(ps[k]) && qs[k].choice == ps[k].choice;
    assert forall c :: HasType(qs, c) <==> HasType(ps, c);
  }

  lemma SurvivesTransitive(a: Server, b: Server, c: Server)
    requires Kept(a, b) && Kept(b, c)
    ensures Kept(a, c)
  {
    forall k | 0 <= k < MAX_PLAYERS
      ensures Survives(a.players[k], c.players[k])
    {
      assert Survives(a.players[k], b.players[k]) && Survives(b.players[k], c.players[k]);
    }
  }

  /** Surviving players were there, and admitted, before. */
  lemma KeptAdmitted(s: Server, r: Server)
    requires Kept(s, r)
    ensures Connected(r.players) <= Connected(s.players)
    ensures HasAdmitted(r.players) ==> HasAdmitted(s.players)
    ensures Connected(r.players) == Connected(s.players) ==> (HasAdmitted(r.players) <==> HasAdmitted(s.players))
  {
    forall k | 0 <= k < MAX_PLAYERS
      ensures IsAdmitted(r.players[k]) ==> IsAdmitted(s.players[k])
      ensures k in Connected(r.players) ==> k in Connected(s.players)
      ensures k in Connected(r.players) && IsAdmitted(s.players[k]) ==> IsAdmitted(r.players[k])
    {
      assert Survives(s.players[k], r.players[k]);
    }
    if HasAdmitted(s.players) && Connected(r.players) == Connected(s.players) {
      var k :| 0 <= k < MAX_PLAYERS && IsAdmitted(s.players[k]);
      assert k in Connected(r.players);
    }
  }

  lemma NestedTransitive(a: Server, b: Server, c: Server)
    requires Nested(a, b) && Nested(b, c)
    ensures Nested(a, c)
  {
    hide Sound, TypesAlive, HasAdmitted, Kept;
    SurvivesTransitive(a, b, c);
    KeptAdmitted(b, c);
  }

  lemma NestedReflexive(s: Server)
    requires Sound(s)
    ensures Nested(s, s)
  {
  }

  // ---------------------------------------------------------------- ending and starting a round

  lemma EndGameSound(s: Server)
    requires Records(s) && Unanimous(s.players)
    ensures Sound(EndGame(s)) && Kept(s, EndGame(s)) && EndGame(s).phase == GameOver
    ensures Connected(EndGame(s).players) <= Connected(s.players)
  {
    EndGamePrunes(s);
    PrunedKeeps(s, EndGame(s));
  }

  lemma FewAdmittedUnanimous(ps: seq<Player>)
    requires AdmittedCount(ps) < 2
    ensures Unanimous(ps)
  {
    CountAtMostOne(ps, IsAdmitted);
  }

  lemma OneTypeUnanimous(s: Server)
    requires Sound(s) && s.phase == RoundActive && TypesAlive(s.players) <= 1
    ensures Unanimous(s.players)
  {
    OneTypeMeansUnanimous(s.players);
  }

  lemma StartRoundSound(s: Server, now: nat)
    requires Records(s)
    ensures var r := StartRound(s, now); Sound(r) && Kept(s, r) && Connected(r.players) == Connected(s.players)
  {
    var r := StartRound(s, now);
    forall k | 0 <= k < MAX_PLAYERS && s.players[k].connected
      ensures PlayerOk(r.players[k], r.nextId) && !r.players[k].waiting
    {
      assert PlayerOk(s.players[k], s.nextId);
    }
  }

  // ---------------------------------------------------------------- the mutual recursion

  lemma {:induction false} BroadcastSound(s: Server, line: string, now: nat)
    requires Sound(s)
    ensures Nested(s, Broadcast(s, line, now))
    decreases Connected(s.players), 1, 0
  {
    var s' := s.(players := MapConnected(s.players, p => Delivered(p, line)));
    BroadcastPrunes(s.players, line);
    PrunedKeeps(s, s');
    if Connected(s'.players) == Connected(s.players) {
      PrunedNobody(s.players, s'.players);
    } else {
      ReevaluateSound(s', now);
      SettledNested(s, s', Reevaluate(s', now));
    }
  }

  /** After players were lost, re-evaluation completes a nested step. */
  lemma SettledNested(s: Server, s': Server, r: Server)
    requires s.phase == s'.phase && s.joinDeadline == s'.joinDeadline
    requires Kept(s, s') && Settled(s', r) && Connected(s'.players) != Connected(s.players)
    ensures Nested(s, r)
  {
    hide Sound, TypesAlive, HasAdmitted, Kept;
    SurvivesTransitive(s, s', r);
    KeptAdmitted(s, s');
    KeptAdmitted(s', r);
  }

  lemma {:induction false} PositionsSound(s: Server, n: nat, now: nat)
    requires Sound(s) && n <= MAX_PLAYERS
    ensures Nested(s, PositionsUpTo(s, n, now))
    decreases Connected(s.players), 2, n
  {
    hide Sound, Nested, Broadcast;
    if n == 0 {
      NestedReflexive(s);
    } else {
      var m := PositionsUpTo(s, n - 1, now);
      PositionsSound(s, n - 1, now);
      NestedSound(s, m);
      if IsAdmitted(m.players[n - 1]) {
        var line := Text.PlayerLine(m.players[n - 1]);
        BroadcastSound(m, line, now);
        NestedTransitive(s, m, Broadcast(m, line, now));
      }
    }
  }

  lemma NestedSound(s: Server, r: Server)
    requires Nested(s, r)
    ensures Sound(r) && Connected(r.players) <= Connected(s.players)
  {
  }

  lemma {:induction false} StartActiveRoundSound(s: Server, now: nat)
    requires Records(s)
    ensures var r := StartActiveRound(s, now);
            Sound(r) && Kept(s, r) && (r.phase == RoundActive || r.phase == GameOver)
    decreases Connected(s.players), 4, 0
  {
    hide Sound, Kept, Broadcast, PositionsUpTo;
    var s1 := StartRound(s, now);
    StartRoundSound(s, now);
    var line := Text.RoundStartLine(s1.roundNo, ROUND_SECONDS);
    BroadcastSound(s1, line, now);
    var s2 := Broadcast(s1, line, now);
    PositionsSound(s2, MAX_PLAYERS, now);
    NestedTransitive(s1, s2, BroadcastPositions(s2, now));
    SurvivesTransitive(s, s1, BroadcastPositions(s2, now));
  }

  lemma {:induction false} ReevaluateSound(s: Server, now: nat)
    requires Sound(s)
    ensures Settled(s, Reevaluate(s, now))
    decreases Connected(s.players), 6, 0
  {
    hide StartActiveRound, FinishRepicks, EndGame;
    CountZeroIff(s.players, IsAdmitted);
    match s.phase
    case LobbyOpen =>
    case Setup =>
      if AdmittedCount(s.players) < 2 {
        FewAdmittedUnanimous(s.players);
        EndGameSound(s);
      } else {
        StartActiveRoundSound(s, now);
      }
    case RoundActive =>
      if AliveCount(s.players) <= 1 {
        FewAliveMeansOneType(s.players);
      }
      if TypesAlive(s.players) <= 1 {
        OneTypeUnanimous(s);
        EndGameSound(s);
      }
    case GameOver =>
  }
}
