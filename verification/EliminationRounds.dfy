/** Whole elimination rounds. All that a round sends to each player is fixed by the state before it; it
    loses nobody exactly when every buffer takes it; and then the fights conserve the tiles and the
    survivors decide. With a loss in the middle of it, neither need hold. */
module EliminationRounds {
  import opened Common
  import opened Text
  import opened Protocol
  import opened Game
  import opened Pairing
  import opened ServerState
  import opened ServerInvariant
  import opened SnapshotText
  import opened Mail
  import opened Elimination

  // ---------------------------------------------------------------- what a round sends

  /** The lines of one fight on the table before it: to everybody about it, and to the loser. */
  function FightPost(ps: Table, p: Pair): Post
    requires InTable(p)
  {
    var a, b, r := Fought(ps, p)[p.a], Fought(ps, p)[p.b], Result(ps, p);
    if r == 1 then Then(ToAll([FightLine(a, b, a)]), ToOne(p.b, ["ELIMINATED lost"]))
    else if r == -1 then Then(ToAll([FightLine(a, b, b)]), ToOne(p.a, ["ELIMINATED lost"]))
    else ToAll([CString("PAIR " + a.name + " " + b.name + " " + [a.choice] + " " + [b.choice] + " TIE")])
  }

  function FightsPost(ps: Table, pairs: seq<Pair>): Post
    requires AllInTable(pairs)
    decreases |pairs|
  {
    if pairs == [] then ToAll([]) else
      var before, last := pairs[..|pairs| - 1], pairs[|pairs| - 1];
      Then(FightsPost(ps, before), FightPost(FoughtAll(ps, before), last))
  }

  /** The table after the fights of a round. */
  function LeftTable(ps: Table, pairs: seq<Pair>): Table
    requires AllInTable(pairs)
  {
    MapAll(FoughtAll(ps, pairs), RoundLeft)
  }

  function ByeLines(ps: Table, bye: int): seq<string>
    requires -1 <= bye < MAX_PLAYERS
  {
    if bye == -1 then [] else ["BYE " + ps[bye].name]
  }

  /** The fights, the bye and the positions. */
  function FoughtPost(s: Server, pairs: seq<Pair>, bye: int): Post
    requires AllInTable(pairs) && -1 <= bye < MAX_PLAYERS
  {
    Then(Then(FightsPost(s.players, pairs), ToAll(ByeLines(s.players, bye))),
         ToAll(PlayerLines(LeftTable(s.players, pairs))))
  }

  /** The state that the survivors of table `t` decide on, before anything is sent about it. */
  function DecidedState(s: Server, t: Table, now: nat): Server {
    if AliveCount(t) <= 1 then s.(phase := GameOver, players := t)
    else if AllAliveSameChoice(t) then s.(phase := Repick, players := MapAll(t, RepickReset))
    else StartRound(s.(players := t), now)
  }

  function DecisionPost(s: Server, t: Table): Post {
    if AliveCount(t) <= 1 then ResultLines(t)
    else if AllAliveSameChoice(t) then ToAll(["REPICK_START"] + PlayerLines(MapAll(t, RepickReset)))
    else ToAll(StartLines(s.roundNo + 1, StartRound(s.(players := t), 0).players))
  }

  /** All that a round sends to each slot, in terms of the state before it. */
  function RoundPost(s: Server, pairs: seq<Pair>, bye: int): Post
    requires AllInTable(pairs) && -1 <= bye < MAX_PLAYERS
  {
    Then(FoughtPost(s, pairs, bye), DecisionPost(s, LeftTable(s.players, pairs)))
  }

  // ---------------------------------------------------------------- tables and buffers

  lemma MovedPosted(p: Player, x: real, y: real, lines: seq<string>)
    ensures Posted(p.(x := x, y := y), lines) == Posted(p, lines).(x := x, y := y)
  {
    hide EnqueuedAll;
    var q := p.(x := x, y := y);
    assert q.outbuf == p.outbuf;
    if EnqueuedAll(p.outbuf, lines).Some? {
      var outbuf := EnqueuedAll(p.outbuf, lines).value;
      assert Posted(q, lines) == q.(outbuf := outbuf) && Posted(p, lines) == p.(outbuf := outbuf);
      hide Posted;
    } else {
      assert Posted(q, lines) == q && Posted(p, lines) == p;
      hide Posted;
    }
  }

  lemma EliminatedPosted(p: Player, lines: seq<string>)
    ensures Posted(Eliminated(p), lines) == Eliminated(Posted(p, lines))
  {
    hide EnqueuedAll;
  }

  lemma FighterPosted(p: Player, other: Player, other': Player, lines: seq<string>, result: int)
    requires other'.x == other.x && other'.y == other.y
    ensures Fighter(Posted(p, lines), other', result) == Posted(Fighter(p, other, result), lines)
    ensures Fighter(p, other', result) == Fighter(p, other, result)
  {
    MovedPosted(p, other.x, other.y, lines);
    EliminatedPosted(p, lines);
    hide Posted, Eliminated;
  }

  lemma FightLinesPosted(a: Player, b: Player, w: Player, a': Player, b': Player, w': Player)
    requires SamePlayer(a, a') && SamePlayer(b, b') && SamePlayer(w, w')
    ensures FightLine(a', b', w') == FightLine(a, b, w) && TieFightLine(a', b') == TieFightLine(a, b)
  {
    hide CString;
  }

  lemma FighterKeeps(p: Player, other: Player, result: int)
    ensures var q := Fighter(p, other, result); q.connected == p.connected && q.outbuf == p.outbuf
  {
    assert Eliminated(p).connected == p.connected && Eliminated(p).outbuf == p.outbuf;
    hide Eliminated;
  }

  /** A fight does not touch buffers. */
  lemma FoughtBuffers(ps: Table, p: Pair)
    requires InTable(p)
    ensures forall k: Slot :: Fought(ps, p)[k].connected == ps[k].connected && Fought(ps, p)[k].outbuf == ps[k].outbuf
    ensures Connected(Fought(ps, p)) == Connected(ps)
  {
    FighterKeeps(ps[p.a], ps[p.b], Result(ps, p));
    FighterKeeps(ps[p.b], ps[p.a], -Result(ps, p));
    hide Fighter, Result;
    SameConnected(ps, Fought(ps, p));
  }

  lemma SameFighter(p: Player, q: Player)
    requires SamePlayer(p, q)
    ensures q.x == p.x && q.y == p.y && q.choice == p.choice && q.connected == p.connected
  {
  }

  /** What was sent before a fight changes neither it nor its lines. */
  lemma FoughtPosted(ps: Table, m: Post, p: Pair)
    requires InTable(p)
    ensures Fought(PostedAll(ps, m), p) == PostedAll(Fought(ps, p), m)
    ensures FightPost(PostedAll(ps, m), p) == FightPost(ps, p)
  {
    var qs := PostedAll(ps, m);
    PostedSlot(ps, m, p.a);
    PostedSlot(ps, m, p.b);
    SameFighter(ps[p.a], qs[p.a]);
    SameFighter(ps[p.b], qs[p.b]);
    var r := Result(ps, p);
    assert Result(qs, p) == r;
    FoughtBuffers(ps, p);
    FighterPosted(ps[p.a], ps[p.b], qs[p.b], m[p.a], r);
    FighterPosted(ps[p.b], ps[p.a], qs[p.a], m[p.b], -r);
    var t, u := Fought(ps, p), Fought(qs, p);
    hide Fighter, Result, EnqueuedAll, Posted, SamePlayer;
    forall k: Slot
      ensures u[k] == PostedAll(t, m)[k]
    {
    }
    assert u == PostedAll(t, m);
    FightPostPosted(ps, qs, m, p);
  }

  lemma FightPostPosted(ps: Table, qs: Table, m: Post, p: Pair)
    requires InTable(p) && Result(qs, p) == Result(ps, p) && Fought(qs, p) == PostedAll(Fought(ps, p), m)
    ensures FightPost(qs, p) == FightPost(ps, p)
  {
    hide Fought, Result, PostedAll, FightLine, TieFightLine;
    var t, u := Fought(ps, p), Fought(qs, p);
    PostedSlot(t, m, p.a);
    PostedSlot(t, m, p.b);
    FightLinesPosted(t[p.a], t[p.b], t[p.a], u[p.a], u[p.b], u[p.a]);
    FightLinesPosted(t[p.a], t[p.b], t[p.b], u[p.a], u[p.b], u[p.b]);
  }

  // ---------------------------------------------------------------- the fights, exactly

  lemma LoserSends(s: Server, i: Slot)
    ensures Sends(s, LoserTold(s, i), ToOne(i, ["ELIMINATED lost"]))
  {
    var r, m := LoserTold(s, i), ToOne(i, ["ELIMINATED lost"]);
    OneLine(s.players[i], "ELIMINATED lost");
    forall k: Slot | k != i
      ensures r.players[k] == s.players[k] && Takes(s.players[k], m[k]) && Posted(s.players[k], m[k]) == s.players[k]
    {
      EnqueuedNothing(s.players[k].outbuf);
    }
    ConnectedSlots(s.players);
    ConnectedSlots(r.players);
    hide Takes, Posted, Delivered;
    if AllTake(s.players, m) {
      assert r.players == PostedAll(s.players, m);
    }
  }

  lemma ToldSends(s: Server, line: string, loser: Slot, now: nat)
    ensures Sends(s, LoserTold(Broadcast(s, line, now), loser), Then(ToAll([line]), ToOne(loser, ["ELIMINATED lost"])))
  {
    hide Broadcast, LoserTold, Sends, ToAll, ToOne, Connected;
    var b := Broadcast(s, line, now);
    BroadcastSends(s, line, now);
    LoserSends(b, loser);
    SendsShrinks(b, LoserTold(b, loser), ToOne(loser, ["ELIMINATED lost"]));
    SendsThen(s, b, LoserTold(b, loser), ToAll([line]), ToOne(loser, ["ELIMINATED lost"]));
  }

  lemma FightSends(s: Server, p: Pair, now: nat)
    requires InTable(p)
    ensures Sends(s.(players := Fought(s.players, p)), PairResolved(s, p, now), FightPost(s.players, p))
  {
    var s1 := s.(players := Fought(s.players, p));
    var a, b := s1.players[p.a], s1.players[p.b];
    hide Fought, Broadcast, LoserTold, Sends, FightLine, TieFightLine, Result, ToAll, ToOne;
    ToldSends(s1, FightLine(a, b, a), p.b, now);
    ToldSends(s1, FightLine(a, b, b), p.a, now);
    BroadcastSends(s1, TieFightLine(a, b), now);
  }

  /** The fights of a round: what they send, and the table they leave when everybody takes it. */
  lemma {:induction false} FightsSend(s: Server, pairs: seq<Pair>, now: nat)
    requires AllInTable(pairs)
    ensures Sends(s.(players := FoughtAll(s.players, pairs)), PairsResolved(s, pairs, now), FightsPost(s.players, pairs))
    decreases |pairs|
  {
    hide PairResolved, Fought, Sends, FightPost, PostedAll, AllTake, Connected;
    if pairs == [] {
      SendsNothing(s);
    } else {
      var before, p := pairs[..|pairs| - 1], pairs[|pairs| - 1];
      FightsSend(s, before, now);
      var t := s.(players := FoughtAll(s.players, before));
      NextFight(t, PairsResolved(s, before, now), FightsPost(s.players, before), p, now);
    }
  }

  lemma NextFight(t: Server, m: Server, post: Post, p: Pair, now: nat)
    requires InTable(p) && Sends(t, m, post)
    ensures Sends(t.(players := Fought(t.players, p)), PairResolved(m, p, now), Then(post, FightPost(t.players, p)))
  {
    var t', m' := t.(players := Fought(t.players, p)), m.(players := Fought(m.players, p));
    FoughtPosted(t.players, post, p);
    FoughtBuffers(t.players, p);
    FoughtBuffers(m.players, p);
    FightSends(m, p, now);
    hide Fought, PairResolved, FightPost, PostedAll, AllTake;
    SendsFrom(t, m, t', m', post);
    SendsShrinks(m', PairResolved(m, p, now), FightPost(m.players, p));
    SendsThen(t', m', PairResolved(m, p, now), post, FightPost(t.players, p));
  }

  // ---------------------------------------------------------------- the bye and the positions

  lemma {:induction false} FightsKeep(ps: Table, pairs: seq<Pair>)
    requires AllInTable(pairs)
    ensures forall k: Slot :: var q := FoughtAll(ps, pairs)[k];
              q.connected == ps[k].connected && q.outbuf == ps[k].outbuf && q.name == ps[k].name
    decreases |pairs|
  {
    hide Result;
    if pairs != [] {
      FightsKeep(ps, pairs[..|pairs| - 1]);
    }
  }

  lemma LeftPosted(ps: Table, m: Post)
    ensures MapAll(PostedAll(ps, m), RoundLeft) == PostedAll(MapAll(ps, RoundLeft), m)
  {
    hide EnqueuedAll;
    forall k: Slot
      ensures RoundLeft(Posted(ps[k], m[k])) == Posted(RoundLeft(ps[k]), m[k])
      ensures MapAll(PostedAll(ps, m), RoundLeft)[k] == RoundLeft(PostedAll(ps, m)[k])
      ensures MapAll(ps, RoundLeft)[k] == RoundLeft(ps[k])
    {
    }
  }

  lemma LeftBuffers(ps: Table)
    ensures forall k: Slot :: MapAll(ps, RoundLeft)[k] == RoundLeft(ps[k])
    ensures Connected(MapAll(ps, RoundLeft)) == Connected(ps)
  {
    forall k: Slot
      ensures MapAll(ps, RoundLeft)[k] == RoundLeft(ps[k])
    {
    }
  }

  lemma ResetPosted(ps: Table, m: Post)
    ensures MapAll(PostedAll(ps, m), RepickReset) == PostedAll(MapAll(ps, RepickReset), m)
  {
    hide EnqueuedAll;
    forall k: Slot
      ensures RepickReset(Posted(ps[k], m[k])) == Posted(RepickReset(ps[k]), m[k])
      ensures MapAll(PostedAll(ps, m), RepickReset)[k] == RepickReset(PostedAll(ps, m)[k])
      ensures MapAll(ps, RepickReset)[k] == RepickReset(ps[k])
    {
    }
  }

  lemma ResetBuffers(ps: Table)
    ensures forall k: Slot :: MapAll(ps, RepickReset)[k] == RepickReset(ps[k])
    ensures Connected(MapAll(ps, RepickReset)) == Connected(ps)
  {
    forall k: Slot
      ensures MapAll(ps, RepickReset)[k] == RepickReset(ps[k])
    {
    }
  }

  lemma ByeSends(s: Server, bye: int, now: nat)
    requires -1 <= bye < MAX_PLAYERS
    ensures Sends(s, if bye != -1 then Broadcast(s, ByeLine(s.players[bye].name), now) else s, ToAll(ByeLines(s.players, bye)))
  {
    hide Sends, Broadcast, ToAll;
    if bye == -1 {
      SendsNothing(s);
    } else {
      BroadcastSends(s, ByeLine(s.players[bye].name), now);
    }
  }

  /** Up to the decision. */
  lemma RoundFoughtSends(s: Server, pairs: seq<Pair>, bye: int, now: nat)
    requires AllInTable(pairs) && -1 <= bye < MAX_PLAYERS
    ensures Sends(s.(players := LeftTable(s.players, pairs)), RoundFought(s, pairs, bye, now), FoughtPost(s, pairs, bye))
  {
    var t, s1 := s.(players := FoughtAll(s.players, pairs)), PairsResolved(s, pairs, now);
    var s2 := if bye != -1 then Broadcast(s1, ByeLine(s1.players[bye].name), now) else s1;
    var fights, byes := FightsPost(s.players, pairs), ToAll(ByeLines(s.players, bye));
    FightsSend(s, pairs, now);
    FightsKeep(s.players, pairs);
    ByeSends(s1, bye, now);
    PostedByes(t.players, fights, bye);
    hide FoughtAll, PairsResolved, Broadcast, PostedAll, AllTake, FightsPost, MapAll, BroadcastPositions, ByeLine, ToAll, PlayerLines;
    SendsShrinks(s1, s2, ToAll(ByeLines(s1.players, bye)));
    SendsThen(t, s1, s2, fights, byes);
    LeaveAndShow(t, s2, Then(fights, byes), now);
  }

  lemma PostedByes(ps: Table, m: Post, bye: int)
    requires -1 <= bye < MAX_PLAYERS
    ensures ByeLines(PostedAll(ps, m), bye) == ByeLines(ps, bye)
  {
    if bye != -1 {
      PostedSlot(ps, m, bye);
    }
  }

  lemma LeaveAndShow(t: Server, b: Server, m: Post, now: nat)
    requires Sends(t, b, m)
    ensures var t' := t.(players := MapAll(t.players, RoundLeft));
            Sends(t', BroadcastPositions(b.(players := MapAll(b.players, RoundLeft)), now), Then(m, ToAll(PlayerLines(t'.players))))
  {
    var t', b' := t.(players := MapAll(t.players, RoundLeft)), b.(players := MapAll(b.players, RoundLeft));
    LeftPosted(t.players, m);
    LeftBuffers(t.players);
    LeftBuffers(b.players);
    PositionsSend(b', now);
    PostedLines(t'.players, m);
    hide MapAll, PostedAll, AllTake, BroadcastPositions, PlayerLines, ToAll;
    SendsFrom(t, b, t', b', m);
    SendsThen(t', b', BroadcastPositions(b', now), m, ToAll(PlayerLines(t'.players)));
  }

  // ---------------------------------------------------------------- the decision

  lemma PostedCounts(ps: Table, m: Post)
    ensures AliveCount(PostedAll(ps, m)) == AliveCount(ps)
    ensures AllAliveSameChoice(PostedAll(ps, m)) == AllAliveSameChoice(ps)
  {
    var qs := PostedAll(ps, m);
    forall k: Slot
      ensures IsAlive(qs[k]) == IsAlive(ps[k]) && qs[k].choice == ps[k].choice
    {
      PostedSlot(ps, m, k);
    }
    hide PostedAll, IsAlive, CountIf;
    AliveCounted(ps);
    AliveCounted(qs);
    assert Alive(qs) == Alive(ps);
  }

  lemma RepicksFrom(s: Server, b: Server, m: Post, c: Server, now: nat)
    requires Sends(s, b, m) && Connected(c.players) <= Connected(b.players)
    requires Connected(b.players) == Connected(s.players) ==> c == BeginRepicks(b, now)
    ensures var t := s.(phase := Repick, players := MapAll(s.players, RepickReset));
            Sends(t, c, Then(m, ToAll(["REPICK_START"] + PlayerLines(t.players))))
  {
    var t, b' := s.(phase := Repick, players := MapAll(s.players, RepickReset)), b.(phase := Repick, players := MapAll(b.players, RepickReset));
    ResetPosted(s.players, m);
    ResetBuffers(s.players);
    ResetBuffers(b.players);
    LineAndPositionsSend(b', "REPICK_START", now);
    PostedLines(t.players, m);
    hide MapAll, PostedAll, AllTake, Broadcast, BroadcastPositions, PlayerLines, ToAll;
    SendsFrom(s, b, t, b', m);
    SendsThen(t, b', c, m, ToAll(["REPICK_START"] + PlayerLines(t.players)));
  }

  lemma BeginRepicksShrinks(s: Server, now: nat)
    ensures Connected(BeginRepicks(s, now).players) <= Connected(s.players)
  {
    ResetBuffers(s.players);
    hide MapAll, Broadcast, BroadcastPositions;
  }

  lemma DecideShrinks(s: Server, now: nat)
    ensures Connected(Decide(s, now).players) <= Connected(s.players)
  {
    EndGameShrinks(s);
    BeginRepicksShrinks(s, now);
    hide EndGame, BeginRepicks, StartActiveRound, CountIf;
  }

  /** The decision after sending is the decision before it. */
  lemma DecisionSends(s: Server, t: Table, m: Server, post: Post, now: nat)
    requires Sends(s.(players := t), m, post)
    ensures Sends(DecidedState(s, t, now), Decide(m, now), Then(post, DecisionPost(s, t)))
  {
    var l := s.(players := t);
    DecideShrinks(m, now);
    PostedCounts(t, post);
    hide EndGame, BeginRepicks, StartActiveRound, CountIf, AllAliveSameChoice, ResultLines, PlayerLines, StartRound, MapAll, PostedAll, AllTake, ToAll, Then, StartLines;
    if AliveCount(t) <= 1 {
      EndGameFrom(l, m, post, Decide(m, now));
    } else if AllAliveSameChoice(t) {
      RepicksFrom(l, m, post, Decide(m, now), now);
    } else {
      StartFrom(l, m, post, Decide(m, now), now);
      StartedNow(l, now);
    }
  }

  /** A whole round: what it sends to whom, and the state that it leaves when everybody takes it. */
  lemma RoundSends(s: Server, pairs: seq<Pair>, bye: int, now: nat)
    requires AllInTable(pairs) && -1 <= bye < MAX_PLAYERS
    ensures Sends(DecidedState(s, LeftTable(s.players, pairs), now), RoundResolved(s, pairs, bye, now), RoundPost(s, pairs, bye))
  {
    RoundFoughtSends(s, pairs, bye, now);
    hide RoundFought, Decide, DecidedState, DecisionPost, LeftTable, FoughtPost, Sends;
    DecisionSends(s, LeftTable(s.players, pairs), RoundFought(s, pairs, bye, now), FoughtPost(s, pairs, bye), now);
  }

  lemma StartedNow(s: Server, now: nat)
    ensures StartRound(s, now).players == StartRound(s, 0).players
  {
  }

  lemma LeftKeeps(ps: Table, pairs: seq<Pair>)
    requires AllInTable(pairs)
    ensures forall k: Slot :: var q := LeftTable(ps, pairs)[k]; q.connected == ps[k].connected && q.outbuf == ps[k].outbuf
  {
    FightsKeep(ps, pairs);
    LeftBuffers(FoughtAll(ps, pairs));
    hide FoughtAll, MapAll;
  }

  lemma DecidedKeeps(s: Server, t: Table, now: nat)
    ensures forall k: Slot :: var q := DecidedState(s, t, now).players[k]; q.connected == t[k].connected && q.outbuf == t[k].outbuf
  {
    ResetBuffers(t);
    StartedConnected(s.(players := t), now);
    hide MapAll, StartRound, CountIf;
  }

  /** A round loses nobody if and only if every connected player's buffer takes all that the round
      sends to it, as it is fixed by the state before the round. */
  lemma RoundLosesNobodyIff(s: Server, pairs: seq<Pair>, bye: int, now: nat)
    requires AllInTable(pairs) && -1 <= bye < MAX_PLAYERS
    ensures Connected(RoundResolved(s, pairs, bye, now).players) == Connected(s.players) <==>
            AllTake(s.players, RoundPost(s, pairs, bye))
  {
    var t := LeftTable(s.players, pairs);
    RoundSends(s, pairs, bye, now);
    LeftKeeps(s.players, pairs);
    DecidedKeeps(s, t, now);
    hide RoundResolved, RoundPost, LeftTable, DecidedState, AllTake;
    SameTake(s.players, DecidedState(s, t, now).players, RoundPost(s, pairs, bye));
  }

  // ---------------------------------------------------------------- survivors and decision

  /** An elimination round on a table: survivors, places, and what comes next, all in terms of the
      players before it. */
  ghost predicate RoundConserves(s: Server, pairs: seq<Pair>, r: Server)
    requires AllInTable(pairs)
  {
    var before, after := Alive(s.players), Alive(r.players);
    && Connected(r.players) == Connected(s.players)
    && after == before - Losers(s.players, pairs) && Losers(s.players, pairs) <= before
    && |after| == |before| - Decisive(s.players, pairs) && 2 * |after| >= |before|
    && (forall k :: k in after ==> r.players[k].choice == s.players[k].choice)
    && (forall k :: k in after ==>
          exists o :: o in before && r.players[k].x == s.players[o].x && r.players[k].y == s.players[o].y)
    && (DistinctPlaces(s.players) ==> DistinctPlaces(r.players))
  }

  ghost predicate RoundDecided(s: Server, r: Server) {
    var after := Alive(r.players);
    && r.phase == (if |after| <= 1 then GameOver
                   else if forall i, j :: i in after && j in after ==> r.players[i].choice == r.players[j].choice then Repick
                   else RoundActive)
    && (r.phase == RoundActive ==>
          r.roundNo == s.roundNo + 1 && forall k :: k in after ==> r.players[k].inRound)
  }

  lemma AliveMeans(ps: Table)
    ensures forall k: Slot :: k in Alive(ps) <==> IsAlive(ps[k])
  {
  }

  lemma SamePlaces(ps: Table, qs: Table)
    requires Alive(qs) == Alive(ps) && DistinctPlaces(ps)
    requires forall k :: k in Alive(ps) ==> qs[k].x == ps[k].x && qs[k].y == ps[k].y
    ensures DistinctPlaces(qs)
  {
  }

  lemma {:induction false} SurvivorChoices(ps: Table, pairs: seq<Pair>)
    requires AllInTable(pairs) && Disjoint(pairs)
    ensures forall k: Slot :: k in Alive(FoughtAll(ps, pairs)) ==> FoughtAll(ps, pairs)[k].choice == ps[k].choice
  {
    forall k: Slot
      ensures FoughtAll(ps, pairs)[k].choice == ps[k].choice
    {
      FoughtSlot(ps, pairs, k);
    }
  }

  /** A slot of the decided state is the slot after the fights, but for flags of the round and output. */
  ghost predicate EndsAs(p: Player, q: Player) {
    && q.connected == p.connected && IsAlive(q) == IsAlive(p)
    && q.choice == p.choice && q.x == p.x && q.y == p.y
  }

  lemma DecidedSlots(s: Server, pairs: seq<Pair>, now: nat)
    requires AllInTable(pairs) && NobodyWaits(s.players)
    ensures var t, r := FoughtAll(s.players, pairs), DecidedState(s, LeftTable(s.players, pairs), now);
            && (forall k: Slot :: EndsAs(t[k], r.players[k]))
            && (r.phase == RoundActive && AliveCount(LeftTable(s.players, pairs)) > 1 && !AllAliveSameChoice(LeftTable(s.players, pairs)) ==>
                  forall k: Slot :: IsAlive(r.players[k]) ==> r.players[k].inRound)
  {
    var t, l := FoughtAll(s.players, pairs), LeftTable(s.players, pairs);
    FoughtNobodyWaits(s.players, pairs);
    LeftBuffers(t);
    ResetBuffers(l);
    hide FoughtAll, MapAll, CountIf, AllAliveSameChoice;
  }

  lemma {:induction false} FoughtNobodyWaits(ps: Table, pairs: seq<Pair>)
    requires AllInTable(pairs) && NobodyWaits(ps)
    ensures NobodyWaits(FoughtAll(ps, pairs))
    decreases |pairs|
  {
    hide Result;
    if pairs != [] {
      FoughtNobodyWaits(ps, pairs[..|pairs| - 1]);
    }
  }

  lemma SameAlive(ps: Table, qs: Table)
    requires forall k: Slot :: EndsAs(ps[k], qs[k])
    ensures Alive(qs) == Alive(ps)
    ensures forall k :: k in Alive(ps) ==> 0 <= k < MAX_PLAYERS && qs[k].x == ps[k].x && qs[k].y == ps[k].y && qs[k].choice == ps[k].choice
  {
    hide IsAlive;
    assert forall k: Slot :: EndsAs(ps[k], qs[k]);
  }

  lemma {:induction false} Conserved(s: Server, pairs: seq<Pair>, t: Table, r: Server)
    requires AllInTable(pairs) && Alive(r.players) == Alive(t) && Connected(r.players) == Connected(s.players)
    requires Alive(t) == Alive(s.players) - Losers(s.players, pairs) && Losers(s.players, pairs) <= Alive(s.players)
    requires |Alive(t)| == |Alive(s.players)| - Decisive(s.players, pairs) && 2 * |Alive(t)| >= |Alive(s.players)|
    requires forall k :: k in Alive(t) ==> 0 <= k < MAX_PLAYERS && t[k].choice == s.players[k].choice
    requires forall k :: k in Alive(t) ==>
               r.players[k].x == t[k].x && r.players[k].y == t[k].y && r.players[k].choice == t[k].choice
    requires forall k :: k in Alive(t) ==>
               exists o :: o in Alive(s.players) && t[k].x == s.players[o].x && t[k].y == s.players[o].y
    requires DistinctPlaces(s.players) ==> DistinctPlaces(r.players)
    ensures RoundConserves(s, pairs, r)
  {
    hide Losers, Decisive, DistinctPlaces, Alive;
    AliveSlots(s.players);
    forall k | k in Alive(r.players)
      ensures exists o :: o in Alive(s.players) && r.players[k].x == s.players[o].x && r.players[k].y == s.players[o].y
    {
      var o :| o in Alive(s.players) && t[k].x == s.players[o].x && t[k].y == s.players[o].y;
      assert r.players[k].x == s.players[o].x && r.players[k].y == s.players[o].y;
    }
  }

  lemma Decided(s: Server, t: Table, r: Server)
    requires Alive(r.players) == Alive(t)
    requires forall k :: k in Alive(t) ==> r.players[k].choice == t[k].choice
    requires r.phase == (if |Alive(t)| <= 1 then GameOver
                         else if forall i, j :: i in Alive(t) && j in Alive(t) ==> t[i].choice == t[j].choice then Repick
                         else RoundActive)
    requires r.phase == RoundActive ==> r.roundNo == s.roundNo + 1
    requires r.phase == RoundActive ==> forall k :: 0 <= k < MAX_PLAYERS && IsAlive(r.players[k]) ==> r.players[k].inRound
    ensures RoundDecided(s, r)
  {
    AliveSlots(r.players);
    AliveMeans(r.players);
    hide Alive;
  }

  /** Who is alive after the fights decides. */
  lemma LeftCounts(ps: Table, pairs: seq<Pair>)
    requires AllInTable(pairs)
    ensures var t, l := FoughtAll(ps, pairs), LeftTable(ps, pairs);
            && AliveCount(l) == |Alive(t)|
            && (AllAliveSameChoice(l) <==> |Alive(t)| >= 2 && forall i, j :: i in Alive(t) && j in Alive(t) ==> t[i].choice == t[j].choice)
  {
    var t, l := FoughtAll(ps, pairs), LeftTable(ps, pairs);
    LeftBuffers(t);
    assert forall k: Slot :: EndsAs(t[k], l[k]);
    hide LeftTable, FoughtAll, MapAll, CountIf;
    SameAlive(t, l);
    AliveCounted(l);
    SameChoiceSet(l);
  }

  /** Every connected player's buffer takes all that the round sends to it. */
  predicate RoundTaken(s: Server, pairs: seq<Pair>, bye: int)
    requires AllInTable(pairs) && -1 <= bye < MAX_PLAYERS
  {
    AllTake(s.players, RoundPost(s, pairs, bye))
  }

  lemma RoundLeaves(s: Server, pairs: seq<Pair>, bye: int, now: nat)
    requires AllInTable(pairs) && -1 <= bye < MAX_PLAYERS && RoundTaken(s, pairs, bye)
    ensures SameGame(DecidedState(s, LeftTable(s.players, pairs), now), RoundResolved(s, pairs, bye, now))
    ensures Connected(RoundResolved(s, pairs, bye, now).players) == Connected(s.players)
  {
    var t := LeftTable(s.players, pairs);
    var d := DecidedState(s, t, now);
    RoundSends(s, pairs, bye, now);
    LeftKeeps(s.players, pairs);
    DecidedKeeps(s, t, now);
    hide RoundResolved, RoundPost, LeftTable, DecidedState, AllTake;
    SameTake(s.players, d.players, RoundPost(s, pairs, bye));
    SendsSame(d, RoundResolved(s, pairs, bye, now), RoundPost(s, pairs, bye));
  }

  lemma EndsAsSame(t: Table, d: Server, r: Server)
    requires SameGame(d, r) && forall k: Slot :: EndsAs(t[k], d.players[k])
    ensures forall k: Slot :: EndsAs(t[k], r.players[k])
    ensures (forall k: Slot :: IsAlive(d.players[k]) ==> d.players[k].inRound) ==>
              forall k: Slot :: IsAlive(r.players[k]) ==> r.players[k].inRound
  {
    forall k: Slot
      ensures EndsAs(t[k], r.players[k])
      ensures IsAlive(r.players[k]) == IsAlive(d.players[k]) && r.players[k].inRound == d.players[k].inRound
    {
      assert SamePlayer(d.players[k], r.players[k]) && EndsAs(t[k], d.players[k]);
    }
  }

  lemma DecidedHeader(s: Server, t: Table, now: nat)
    ensures var d := DecidedState(s, t, now);
            && d.phase == (if AliveCount(t) <= 1 then GameOver else if AllAliveSameChoice(t) then Repick else RoundActive)
            && (d.phase == RoundActive ==> d.roundNo == s.roundNo + 1)
  {
    hide CountIf, AllAliveSameChoice;
  }

  /** One elimination round on the pairs of `build_pairs`, everybody alive being in it. If every buffer
      takes what the round sends, which is exactly when it loses nobody, it conserves the tiles, and
      the survivors decide whether the match ends, repicks follow, or the next round starts. */
  lemma {:induction false} EliminationRound(s: Server, pairs: seq<Pair>, left: seq<int>, bye: int, now: nat)
    requires AllInTable(pairs) && Greedy(s.players, Eligible(s.players), pairs, left) && -1 <= bye < MAX_PLAYERS
    requires NobodyWaits(s.players) && forall k :: 0 <= k < MAX_PLAYERS && IsAlive(s.players[k]) ==> s.players[k].inRound
    ensures Connected(RoundResolved(s, pairs, bye, now).players) == Connected(s.players) <==> RoundTaken(s, pairs, bye)
    ensures RoundTaken(s, pairs, bye) ==>
              RoundConserves(s, pairs, RoundResolved(s, pairs, bye, now)) && RoundDecided(s, RoundResolved(s, pairs, bye, now))
  {
    RoundLosesNobodyIff(s, pairs, bye, now);
    if RoundTaken(s, pairs, bye) {
      TakenRound(s, pairs, left, bye, now);
    }
  }

  lemma {:induction false} TakenRound(s: Server, pairs: seq<Pair>, left: seq<int>, bye: int, now: nat)
    requires AllInTable(pairs) && Greedy(s.players, Eligible(s.players), pairs, left) && -1 <= bye < MAX_PLAYERS
    requires NobodyWaits(s.players) && forall k :: 0 <= k < MAX_PLAYERS && IsAlive(s.players[k]) ==> s.players[k].inRound
    requires RoundTaken(s, pairs, bye)
    ensures RoundConserves(s, pairs, RoundResolved(s, pairs, bye, now)) && RoundDecided(s, RoundResolved(s, pairs, bye, now))
  {
    var t, r := FoughtAll(s.players, pairs), RoundResolved(s, pairs, bye, now);
    TakenTable(s, pairs, bye, now);
    SameAlive(t, r.players);
    LeftCounts(s.players, pairs);
    FightsConserve(s.players, pairs, left);
    GreedyPartitions(s.players, Eligible(s.players), pairs, left);
    SurvivorChoices(s.players, pairs);
    AliveSlots(s.players);
    hide RoundResolved, LeftTable, FoughtAll, Greedy, Eligible, Losers, Decisive, Alive, DistinctPlaces, RoundConserves, RoundDecided, CountIf, AllAliveSameChoice, EndsAs, RoundTaken, NobodyWaits;
    if DistinctPlaces(s.players) {
      SamePlaces(t, r.players);
    }
    Conserved(s, pairs, t, r);
    Decided(s, t, r);
  }

  /** The table and the header that such a round ends with. */
  lemma TakenTable(s: Server, pairs: seq<Pair>, bye: int, now: nat)
    requires AllInTable(pairs) && -1 <= bye < MAX_PLAYERS && NobodyWaits(s.players) && RoundTaken(s, pairs, bye)
    ensures var t, l, r := FoughtAll(s.players, pairs), LeftTable(s.players, pairs), RoundResolved(s, pairs, bye, now);
            && Connected(r.players) == Connected(s.players) && (forall k: Slot :: EndsAs(t[k], r.players[k]))
            && r.phase == (if AliveCount(l) <= 1 then GameOver else if AllAliveSameChoice(l) then Repick else RoundActive)
            && (r.phase == RoundActive ==>
                  r.roundNo == s.roundNo + 1 && forall k: Slot :: IsAlive(r.players[k]) ==> r.players[k].inRound)
  {
    var t, l, r := FoughtAll(s.players, pairs), LeftTable(s.players, pairs), RoundResolved(s, pairs, bye, now);
    var d := DecidedState(s, l, now);
    RoundLeaves(s, pairs, bye, now);
    DecidedSlots(s, pairs, now);
    DecidedHeader(s, l, now);
    hide RoundResolved, LeftTable, DecidedState, FoughtAll, CountIf, AllAliveSameChoice, EndsAs, RoundTaken, NobodyWaits;
    EndsAsSame(t, d, r);
  }

  // ---------------------------------------------------------------- the records

  /** Fights of living players keep all records: a winner stands on the board, a loser beside it. */
  lemma {:induction false} FoughtRecords(s: Server, pairs: seq<Pair>, left: seq<int>)
    requires Records(s) && AllInTable(pairs) && Greedy(s.players, Eligible(s.players), pairs, left)
    ensures Records(s.(players := FoughtAll(s.players, pairs)))
    ensures NobodyWaits(s.players) ==> NobodyWaits(FoughtAll(s.players, pairs))
  {
    var t := FoughtAll(s.players, pairs);
    GreedyPartitions(s.players, Eligible(s.players), pairs, left);
    SurvivorsAre(s.players, pairs, left);
    PairsLive(s.players, pairs, left);
    hide FoughtAll, Greedy, Eligible, Losers, Disjoint, PlayerOk, Alive, SameIdentity, Records, IsAlive;
    forall k: Slot
      ensures SameIdentity(s.players[k], t[k])
      ensures t[k].connected ==> PlayerOk(t[k], s.nextId)
    {
      FoughtIdentity(s.players, pairs, k);
      if t[k].connected {
        FoughtPlayerOk(s, pairs, k);
      }
    }
    IdentityRecords(s, t);
  }

  lemma {:induction false} FoughtIdentity(ps: Table, pairs: seq<Pair>, k: Slot)
    requires AllInTable(pairs) && Disjoint(pairs)
    ensures SameIdentity(ps[k], FoughtAll(ps, pairs)[k])
    ensures FoughtAll(ps, pairs)[k].connected ==> ps[k].connected
  {
    FoughtSlot(ps, pairs, k);
    hide FoughtAll, Losers;
  }

  lemma IdentityRecords(s: Server, t: Table)
    requires Records(s)
    requires forall k: Slot :: SameIdentity(s.players[k], t[k]) && (t[k].connected ==> PlayerOk(t[k], s.nextId))
    ensures Records(s.(players := t))
    ensures NobodyWaits(s.players) ==> NobodyWaits(t)
  {
    hide PlayerOk;
    assert forall k: Slot :: SameIdentity(s.players[k], t[k]);
  }

  ghost predicate SameIdentity(p: Player, q: Player) {
    q.connected == p.connected && q.id == p.id && q.registered == p.registered && q.name == p.name && q.waiting == p.waiting
  }

  lemma {:induction false} FoughtPlayerOk(s: Server, pairs: seq<Pair>, k: Slot)
    requires Records(s) && AllInTable(pairs) && Disjoint(pairs) && s.players[k].connected
    requires Losers(s.players, pairs) <= Alive(s.players)
    requires forall i :: 0 <= i < |pairs| ==> IsAlive(s.players[pairs[i].a]) && IsAlive(s.players[pairs[i].b])
    ensures PlayerOk(FoughtAll(s.players, pairs)[k], s.nextId)
  {
    hide FoughtAll, Losers, Disjoint, PlayerOk, Distinct;
    var t := FoughtAll(s.players, pairs);
    FoughtSlot(s.players, pairs, k);
    assert PlayerOk(s.players[k], s.nextId);
    if k in Losers(s.players, pairs) {
      LoserOk(s.players[k], s.nextId);
    } else {
      var o := SurvivorPlace(s.players, pairs, k);
      if o != k {
        var i :| 0 <= i < |pairs| && {pairs[i].a, pairs[i].b} == {k as int, o as int};
        assert k as int in {pairs[i].a, pairs[i].b};
        assert o as int in Alive(s.players) && PlayerOk(s.players[o], s.nextId);
        WinnerOk(s.players[k], s.players[o], s.nextId);
      }
    }
  }

  lemma {:induction false} PairsLive(ps: Table, pairs: seq<Pair>, left: seq<int>)
    requires AllInTable(pairs) && Greedy(ps, Eligible(ps), pairs, left)
    ensures forall i :: 0 <= i < |pairs| ==> IsAlive(ps[pairs[i].a]) && IsAlive(ps[pairs[i].b])
  {
    hide Greedy, Eligible;
    GreedyPartitions(ps, Eligible(ps), pairs, left);
    EligibleAscending(ps);
    forall i | 0 <= i < |pairs|
      ensures IsAlive(ps[pairs[i].a]) && IsAlive(ps[pairs[i].b])
    {
      assert pairs[i].a in Eligible(ps) && pairs[i].b in Eligible(ps);
    }
  }

  lemma LoserOk(p: Player, nextId: int)
    requires PlayerOk(p, nextId) && IsAlive(p)
    ensures PlayerOk(Eliminated(p), nextId) && !p.waiting
  {
  }

  lemma WinnerOk(p: Player, other: Player, nextId: int)
    requires PlayerOk(p, nextId) && IsAlive(p) && PlayerOk(other, nextId) && IsAlive(other)
    ensures PlayerOk(p.(x := other.x, y := other.y), nextId)
  {
  }

  lemma SameGameRecords(s: Server, r: Server)
    requires Records(s) && SameGame(s, r)
    requires forall k: Slot :: r.players[k].connected ==> |r.players[k].outbuf| <= OUTBUF_SIZE
    ensures Records(r) && (NobodyWaits(s.players) ==> NobodyWaits(r.players))
  {
    forall k: Slot
      ensures SamePlayer(s.players[k], r.players[k])
      ensures r.players[k].connected ==> PlayerOk(r.players[k], r.nextId)
    {
      assert s.players[k].connected ==> PlayerOk(s.players[k], s.nextId);
    }
  }

  lemma LeftRecords(s: Server)
    requires Records(s)
    ensures Records(s.(players := MapAll(s.players, RoundLeft)))
    ensures NobodyWaits(s.players) ==> NobodyWaits(MapAll(s.players, RoundLeft))
  {
    var r := s.(players := MapAll(s.players, RoundLeft));
    forall k: Slot
      ensures r.players[k] == RoundLeft(s.players[k])
      ensures r.players[k].connected ==> PlayerOk(r.players[k], r.nextId)
    {
      assert s.players[k].connected ==> PlayerOk(s.players[k], s.nextId);
    }
  }

  /** Consistent records in a round, or at its end. */
  ghost predicate RoundOk(s: Server) {
    Records(s) && NobodyWaits(s.players) && (s.phase == RoundActive || s.phase == GameOver)
  }

  lemma PrunedRoundOk(s: Server, r: Server)
    requires RoundOk(s) && r.nextId == s.nextId && Pruned(s.players, r.players)
    requires r.phase == RoundActive || r.phase == GameOver
    ensures RoundOk(r)
  {
    PrunedKeeps(s, r);
    hide Records;
  }

  /** Whoever a broadcast drops, the records of the others stay consistent. */
  lemma BroadcastRoundOk(s: Server, line: string, now: nat)
    requires RoundOk(s)
    ensures RoundOk(Broadcast(s, line, now))
  {
    var s' := s.(players := MapConnected(s.players, p => Delivered(p, line)));
    BroadcastPrunes(s.players, line);
    assert s'.phase == RoundActive || s'.phase == GameOver;
    hide RoundOk, MapConnected, Delivered, Pruned, CountIf, TypesAlive, EndGame;
    PrunedRoundOk(s, s');
    EndGamePrunes(s');
    EndGameHeader(s');
    PrunedRoundOk(s', EndGame(s'));
  }

  lemma EndGameHeader(s: Server)
    ensures EndGame(s) == s.(phase := GameOver, players := EndGame(s).players)
  {
  }

  lemma {:induction false} PositionsRoundOk(s: Server, n: nat, now: nat)
    requires RoundOk(s) && n <= MAX_PLAYERS
    ensures RoundOk(PositionsUpTo(s, n, now))
  {
    hide RoundOk, Broadcast;
    if n > 0 {
      PositionsRoundOk(s, n - 1, now);
      var m := PositionsUpTo(s, n - 1, now);
      BroadcastRoundOk(m, PlayerLine(m.players[n - 1]), now);
    }
  }

  /** Every connected player's buffer takes what the fights send to it. */
  predicate FightsTaken(s: Server, pairs: seq<Pair>)
    requires AllInTable(pairs)
  {
    AllTake(s.players, FightsPost(s.players, pairs))
  }

  /** Fights that everybody is told about keep every record and leave nobody waiting. */
  lemma {:induction false} ToldFightsOk(s: Server, pairs: seq<Pair>, left: seq<int>, now: nat)
    requires RoundOk(s) && AllInTable(pairs) && Greedy(s.players, Eligible(s.players), pairs, left) && FightsTaken(s, pairs)
    ensures RoundOk(PairsResolved(s, pairs, now))
  {
    var t, r, post := s.(players := FoughtAll(s.players, pairs)), PairsResolved(s, pairs, now), FightsPost(s.players, pairs);
    FoughtRecords(s, pairs, left);
    FightsSend(s, pairs, now);
    FightsKeep(s.players, pairs);
    OutputFits(s);
    hide PairsResolved, FightsPost, Greedy, Eligible, FoughtAll, AllTake, Records;
    SameTake(s.players, t.players, post);
    SendsSame(t, r, post);
    assert forall k: Slot :: t.players[k].connected ==> |t.players[k].outbuf| <= OUTBUF_SIZE;
    ConnectedSlots(t.players);
    ConnectedSlots(r.players);
    SameGameRecords(t, r);
  }

  /** So does the rest of the round up to the decision, whoever it drops. */
  lemma {:induction false} RoundFoughtOk(s: Server, pairs: seq<Pair>, left: seq<int>, bye: int, now: nat)
    requires RoundOk(s) && -1 <= bye < MAX_PLAYERS
    requires AllInTable(pairs) && Greedy(s.players, Eligible(s.players), pairs, left) && FightsTaken(s, pairs)
    ensures RoundOk(RoundFought(s, pairs, bye, now))
  {
    var s1 := PairsResolved(s, pairs, now);
    var s2 := if bye != -1 then Broadcast(s1, ByeLine(s1.players[bye].name), now) else s1;
    ToldFightsOk(s, pairs, left, now);
    LeftOk(s2) by {
      hide RoundOk, Broadcast, PairsResolved;
      if bye != -1 {
        BroadcastRoundOk(s1, ByeLine(s1.players[bye].name), now);
      }
    }
    hide RoundOk, PairsResolved, Greedy, FightsTaken, MapAll, Broadcast, PositionsUpTo;
    PositionsRoundOk(s2.(players := MapAll(s2.players, RoundLeft)), MAX_PLAYERS, now);
  }

  lemma LeftOk(s: Server)
    requires RoundOk(s)
    ensures RoundOk(s.(players := MapAll(s.players, RoundLeft)))
  {
    LeftRecords(s);
    hide Records, MapAll;
  }

  /** A round that everybody takes all of is one whose fights everybody is told about. */
  lemma TakenFights(s: Server, pairs: seq<Pair>, bye: int)
    requires AllInTable(pairs) && -1 <= bye < MAX_PLAYERS && RoundTaken(s, pairs, bye)
    ensures FightsTaken(s, pairs)
  {
    var fights, byes := FightsPost(s.players, pairs), ToAll(ByeLines(s.players, bye));
    var l := LeftTable(s.players, pairs);
    AllTakeThen(s.players, FoughtPost(s, pairs, bye), DecisionPost(s, l));
    AllTakeThen(s.players, Then(fights, byes), ToAll(PlayerLines(l)));
    AllTakeThen(s.players, fights, byes);
    hide AllTake, PostedAll, Then, FightsPost, ByeLines, LeftTable, DecisionPost, PlayerLines, ToAll;
  }

  lemma OutputFits(s: Server)
    requires Records(s)
    ensures forall k: Slot :: s.players[k].connected ==> |s.players[k].outbuf| <= OUTBUF_SIZE
  {
    forall k: Slot | s.players[k].connected
      ensures |s.players[k].outbuf| <= OUTBUF_SIZE
    {
      assert PlayerOk(s.players[k], s.nextId);
    }
  }

  // ---------------------------------------------------------------- room for a round

  /** More than one fight sends to anybody. */
  const FIGHT_ROOM := 150

  /** What the text of lines about fights depends on; an emptied record has it too. */
  predicate Showable(p: Player) { |p.name| < MAX_NAME_LENGTH && OnBoard(p.x) && OnBoard(p.y) }

  ghost predicate AllShowable(ps: Table, pairs: seq<Pair>)
    requires AllInTable(pairs)
  {
    forall i :: 0 <= i < |pairs| ==> Showable(ps[pairs[i].a]) && Showable(ps[pairs[i].b])
  }

  lemma FightLinesShort(a: Player, b: Player, winner: Player)
    requires Showable(a) && Showable(b) && Showable(winner)
    ensures |FightLine(a, b, winner)| <= 130 && |TieFightLine(a, b)| <= 130
  {
    Fixed3Short(winner.x);
    Fixed3Short(winner.y);
    hide Fixed3;
    assert |PairLine(a, b, winner)| <= 130 && |TieLine(a, b)| <= 130;
  }

  lemma BesideBoard()
    ensures OnBoard(-1.0)
  {
  }

  lemma FighterShowable(p: Player, other: Player, result: int)
    requires OnBoard(other.x) && OnBoard(other.y)
    ensures var q := Fighter(p, other, result);
            && q.connected == p.connected && IsAdmitted(q) == IsAdmitted(p)
            && (Printable(p) ==> Printable(q)) && (Showable(p) ==> Showable(q))
  {
    BesideBoard();
    hide IsName, IsRps, OnBoard;
    if result == 1 {
      var q := p.(x := other.x, y := other.y);
      assert Fighter(p, other, result) == q;
    } else if result == -1 {
      assert Fighter(p, other, result) == Eliminated(p);
    }
  }

  lemma FoughtShowable(ps: Table, p: Pair)
    requires InTable(p) && AllPrintable(ps) && Showable(ps[p.a]) && Showable(ps[p.b])
    ensures AllPrintable(Fought(ps, p))
    ensures forall k: Slot :: Showable(ps[k]) ==> Showable(Fought(ps, p)[k])
  {
    FighterShowable(ps[p.a], ps[p.b], Result(ps, p));
    FighterShowable(ps[p.b], ps[p.a], -Result(ps, p));
    hide Result, Fighter, Printable, OnBoard;
    assert Fought(ps, p)[p.a] == Fighter(ps[p.a], ps[p.b], Result(ps, p));
    assert Fought(ps, p)[p.b] == Fighter(ps[p.b], ps[p.a], -Result(ps, p));
    assert forall k: Slot :: k != p.a && k != p.b ==> Fought(ps, p)[k] == ps[k];
    forall k: Slot
      ensures IsAdmitted(Fought(ps, p)[k]) ==> Printable(Fought(ps, p)[k])
    {
      assert IsAdmitted(ps[k]) ==> Printable(ps[k]);
    }
  }

  lemma FightBrief(ps: Table, p: Pair, k: Slot)
    requires InTable(p) && AllPrintable(ps) && Showable(ps[p.a]) && Showable(ps[p.b])
    ensures Brief(FightPost(ps, p)[k], FIGHT_ROOM)
  {
    FoughtShowable(ps, p);
    var t := Fought(ps, p);
    FightLinesShort(t[p.a], t[p.b], t[p.a]);
    FightLinesShort(t[p.a], t[p.b], t[p.b]);
    hide Fought, FightLine, TieFightLine, Brief, Result, Printable, Showable;
    LoserBrief(FightLine(t[p.a], t[p.b], t[p.a]));
    LoserBrief(FightLine(t[p.a], t[p.b], t[p.b]));
    LoserBrief(TieFightLine(t[p.a], t[p.b]));
  }

  lemma LoserBrief(line: string)
    requires |line| <= 130
    ensures Brief([line], FIGHT_ROOM) && Brief([line] + [], FIGHT_ROOM) && Brief([line] + ["ELIMINATED lost"], FIGHT_ROOM)
  {
    assert [line] + [] == [line];
    BriefLine(line, 131);
    BriefLine("ELIMINATED lost", 16);
    BriefThen([line], 131, ["ELIMINATED lost"], 16);
    hide Framed;
  }

  lemma {:induction false} FightsBrief(ps: Table, pairs: seq<Pair>, k: Slot)
    requires AllInTable(pairs) && AllPrintable(ps) && AllShowable(ps, pairs)
    ensures Brief(FightsPost(ps, pairs)[k], FIGHT_ROOM * |pairs|)
    ensures AllPrintable(FoughtAll(ps, pairs))
    ensures forall j: Slot :: Showable(ps[j]) ==> Showable(FoughtAll(ps, pairs)[j])
    decreases |pairs|
  {
    hide Fought, FightPost, Brief, AllPrintable, Showable;
    if pairs == [] {
      BriefNothing(0);
    } else {
      var before, p := pairs[..|pairs| - 1], pairs[|pairs| - 1];
      FightsBrief(ps, before, k);
      var t := FoughtAll(ps, before);
      FoughtShowable(t, p);
      FightBrief(t, p, k);
      BriefThen(FightsPost(ps, before)[k], FIGHT_ROOM * |before|, FightPost(t, p)[k], FIGHT_ROOM);
    }
  }

  /** A fight for each of at most 16 pairs, a bye, the positions, and what the decision sends. */
  const ROUND_ROOM := FIGHT_ROOM * (MAX_PLAYERS / 2) + 54 + LINE_ROOM * MAX_PLAYERS + START_ROOM

  lemma FlagsPrintable(ps: Table)
    requires AllPrintable(ps)
    ensures AllPrintable(MapAll(ps, RoundLeft)) && AllPrintable(MapAll(ps, RepickReset))
  {
    LeftBuffers(ps);
    ResetBuffers(ps);
    hide MapAll;
  }

  lemma DecisionBrief(s: Server, t: Table, k: Slot)
    requires AllPrintable(t) && IsWord(s.roundNo + 1)
    ensures Brief(DecisionPost(s, t)[k], START_ROOM)
  {
    var started := StartRound(s.(players := t), 0).players;
    FlagsPrintable(t);
    StartedPrintable(s.(players := t), 0);
    RoundHeader(s.roundNo + 1, ROUND_SECONDS);
    ResultBrief(t[k]);
    BriefMore(GameOverLines(t[k]), 16, START_ROOM);
    hide Brief, AllPrintable, MapAll, StartRound, CountIf, AllAliveSameChoice, PlayerLines, GameOverLines;
    LineAndPositionsBrief("REPICK_START", MapAll(t, RepickReset));
    LineAndPositionsBrief(RoundStartLine(s.roundNo + 1, ROUND_SECONDS), started);
  }

  lemma {:induction false} FoughtBrief(s: Server, pairs: seq<Pair>, bye: int, k: Slot)
    requires AllInTable(pairs) && AllPrintable(s.players) && AllShowable(s.players, pairs) && |pairs| <= MAX_PLAYERS / 2
    requires -1 <= bye < MAX_PLAYERS && (bye != -1 ==> Showable(s.players[bye]))
    ensures Brief(FoughtPost(s, pairs, bye)[k], FIGHT_ROOM * (MAX_PLAYERS / 2) + 54 + LINE_ROOM * MAX_PLAYERS)
    ensures AllPrintable(LeftTable(s.players, pairs))
  {
    var fights, byes, l := FightsPost(s.players, pairs)[k], ByeLines(s.players, bye), LeftTable(s.players, pairs);
    FightsBrief(s.players, pairs, k);
    FlagsPrintable(FoughtAll(s.players, pairs));
    hide FoughtAll, MapAll, FightsPost, Brief, AllPrintable, PlayerLines, Showable, ByeLines;
    BriefMore(fights, FIGHT_ROOM * |pairs|, FIGHT_ROOM * (MAX_PLAYERS / 2));
    ByeBrief(s.players, bye);
    BriefThen(fights, FIGHT_ROOM * (MAX_PLAYERS / 2), byes, 54);
    PositionsBrief(l);
    BriefThen(fights + byes, FIGHT_ROOM * (MAX_PLAYERS / 2) + 54, PlayerLines(l), LINE_ROOM * MAX_PLAYERS);
  }

  /** With that much room in every buffer a round loses nobody. */
  lemma {:induction false} RoomForRound(s: Server, pairs: seq<Pair>, bye: int)
    requires AllInTable(pairs) && AllPrintable(s.players) && AllShowable(s.players, pairs) && |pairs| <= MAX_PLAYERS / 2
    requires -1 <= bye < MAX_PLAYERS && (bye != -1 ==> Showable(s.players[bye]))
    requires Roomy(s.players, ROUND_ROOM) && IsWord(s.roundNo + 1)
    ensures RoundTaken(s, pairs, bye)
  {
    var l := LeftTable(s.players, pairs);
    hide LeftTable, FoughtPost, DecisionPost, Brief, AllPrintable, Roomy, Showable, AllShowable;
    forall k: Slot
      ensures Brief(RoundPost(s, pairs, bye)[k], ROUND_ROOM)
    {
      FoughtBrief(s, pairs, bye, k);
      DecisionBrief(s, l, k);
      BriefThen(FoughtPost(s, pairs, bye)[k], FIGHT_ROOM * (MAX_PLAYERS / 2) + 54 + LINE_ROOM * MAX_PLAYERS,
                DecisionPost(s, l)[k], START_ROOM);
    }
    RoomTakes(s.players, RoundPost(s, pairs, bye), ROUND_ROOM);
  }

  /** In particular one on the pairs and the bye of `build_pairs`, from consistent records. */
  lemma {:induction false} RoomForGreedyRound(s: Server, pairs: seq<Pair>, left: seq<int>, bye: int)
    requires Records(s) && Roomy(s.players, ROUND_ROOM) && IsWord(s.roundNo + 1)
    requires AllInTable(pairs) && Greedy(s.players, Eligible(s.players), pairs, left)
    requires bye == if |left| == 1 then left[0] else -1
    ensures -1 <= bye < MAX_PLAYERS && RoundTaken(s, pairs, bye)
  {
    hide Greedy, Eligible, Records, Roomy, RoundTaken;
    RecordsPrintable(s);
    PairsShowable(s.players, pairs, left);
    RoomForRound(s, pairs, bye);
  }

  lemma ByeBrief(ps: Table, bye: int)
    requires -1 <= bye < MAX_PLAYERS && (bye != -1 ==> Showable(ps[bye]))
    ensures Brief(ByeLines(ps, bye), 54)
  {
    BriefNothing(54);
    if bye != -1 {
      BriefLine(ByeLine(ps[bye].name), 54);
    }
    hide Brief;
  }

  lemma {:induction false} PairsShowable(ps: Table, pairs: seq<Pair>, left: seq<int>)
    requires AllInTable(pairs) && Greedy(ps, Eligible(ps), pairs, left) && AllPrintable(ps)
    ensures AllShowable(ps, pairs) && |pairs| <= MAX_PLAYERS / 2
    ensures forall k :: k in left ==> 0 <= k < MAX_PLAYERS && Showable(ps[k])
  {
    hide Greedy, Eligible;
    GreedyPartitions(ps, Eligible(ps), pairs, left);
    EligibleAscending(ps);
    EligibleFits(ps);
    forall k | k in Eligible(ps)
      ensures 0 <= k < MAX_PLAYERS && Showable(ps[k])
    {
      assert IsAdmitted(ps[k]) && Printable(ps[k]);
    }
    hide Showable;
    forall i | 0 <= i < |pairs|
      ensures Showable(ps[pairs[i].a]) && Showable(ps[pairs[i].b])
    {
      assert pairs[i].a in Eligible(ps) && pairs[i].b in Eligible(ps);
    }
  }
}
